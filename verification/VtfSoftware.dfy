/**
 * The fabric in software: one object that issues signed requests, validates them
 * in order and serves the memory. Memory layers are plain word arrays.
 */
module VtfSoftware {
  import opened Words
  import opened VtfTypes
  import opened VtfGuard
  import VtfSystem

  datatype Reason =
    | NoReason | Lockdown | InvalidField | Policy | BadTag | Replay | BadEpoch | Thermal | Physical | Sentinel

  /** What is fixed for a run. The route nonce is a function of what it is computed from. */
  datatype Config = Config(
    f: VtfSystem.Fabric, nonce: (U3, Word, U8, Word) -> Word,
    roles: seq<Role>, debug: bool, zeroize: bool, layers: nat, words: nat)
  {
    predicate Valid() { |roles| == LAYERS && layers <= LAYERS }
  }

  datatype Soft = Soft(
    tx: seq<Word>, rx: seq<Word>, epoch: Word, lockdown: bool, reason: Reason, mem: seq<seq<Word>>)
  {
    predicate Shaped(c: Config) {
      && |tx| == |rx| == REQUESTERS && |mem| == c.layers
      && forall l :: 0 <= l < c.layers ==> |mem[l]| == c.words
    }
  }

  /** The next number, modulo 2 to the 32. */
  function Succ(n: Word): Word { n + 1 }

  datatype Reply = Reply(status: bv8, data: Word)

  // ------------------------------------------------------------------- lockdown

  /** The key layers are cleared. */
  function Zeroized(c: Config, mem: seq<seq<Word>>): (r: seq<seq<Word>>)
    requires c.Valid() && |mem| == c.layers
    ensures |r| == |mem|
    ensures forall l :: 0 <= l < |r| ==> r[l] == if c.roles[l] == KeyRole then seq(c.words, _ => 0) else mem[l]
  {
    seq(|mem|, l requires 0 <= l < |mem| => if c.roles[l] == KeyRole then seq(c.words, _ => 0) else mem[l])
  }

  /** A severe event locks the fabric down. */
  function Severe(c: Config, s: Soft, reason: Reason): (t: Soft)
    requires c.Valid() && s.Shaped(c)
    ensures t.Shaped(c)
  {
    s.(reason := reason, lockdown := true, mem := if c.zeroize then Zeroized(c, s.mem) else s.mem)
  }

  // ------------------------------------------------------------------ validation

  predicate TagValid(c: Config, s: Soft, q: Request) {
    (c.f.cmac)((c.f.reqKey)(q.requester, s.epoch), ReqMsg(q)) == q.tag
  }

  predicate FieldsValid(c: Config, q: Request) { q.requester < REQUESTERS && q.layer < c.layers && q.addr < c.words }

  /** The checks in their order. */
  function Finding(c: Config, s: Soft, q: Request): Reason
    requires c.Valid() && s.Shaped(c)
  {
    if s.lockdown then Lockdown
    else if !FieldsValid(c, q) then InvalidField
    else if q.epoch != s.epoch then BadEpoch
    else if !TagValid(c, s, q) then BadTag
    else if q.seqNo != Succ(s.rx[q.requester]) then Replay
    else if !PolicyAllows(q.requester, q.write, c.roles[q.layer], c.debug) then Policy
    else NoReason
  }

  /** A request whose tag, epoch and sequence are right uses up its sequence number, allowed or not. */
  function Validated(c: Config, s: Soft, q: Request): (t: Soft)
    requires c.Valid() && s.Shaped(c)
    ensures t.Shaped(c)
  {
    var why := Finding(c, s, q);
    if why == Lockdown then s.(reason := Lockdown)
    else if why == NoReason || why == Policy then s.(rx := s.rx[q.requester := q.seqNo], reason := why)
    else Severe(c, s, why)
  }

  function Executed(c: Config, s: Soft, q: Request): (t: Soft)
    requires c.Valid() && s.Shaped(c)
    ensures t.Shaped(c)
  {
    var v := Validated(c, s, q);
    if Finding(c, s, q) == NoReason && q.write then v.(mem := v.mem[q.layer := v.mem[q.layer][q.addr := q.data]]) else v
  }

  function ReplyTo(c: Config, s: Soft, q: Request): Reply
    requires c.Valid() && s.Shaped(c)
  {
    if Finding(c, s, q) != NoReason then Reply(0, 0)
    else Reply(1, if q.write then q.data else s.mem[q.layer][q.addr])
  }

  /** The next request of a requester, signed. */
  function Issued(c: Config, s: Soft, requester: U3, write: bool, layer: U8, addr: U32, data: Word): Request
    requires s.Shaped(c)
  {
    var seqNo: Word := if requester < REQUESTERS then Succ(s.tx[requester]) else 0;
    var q := Request(requester, write, layer, addr, if write then data else 0, seqNo, s.epoch,
                     (c.nonce)(requester, seqNo, layer, s.epoch), ZERO);
    q.(tag := (c.f.cmac)((c.f.reqKey)(requester, s.epoch), ReqMsg(q)))
  }

  function AfterIssue(c: Config, s: Soft, requester: U3): (t: Soft)
    requires s.Shaped(c)
    ensures t.Shaped(c)
  {
    if requester < REQUESTERS then s.(tx := s.tx[requester := Succ(s.tx[requester])]) else s
  }

  function Advanced(c: Config, s: Soft): (t: Soft)
    requires s.Shaped(c)
    ensures t.Shaped(c)
  {
    s.(epoch := Succ(s.epoch), tx := seq(REQUESTERS, _ => 0), rx := seq(REQUESTERS, _ => 0))
  }

  // -------------------------------------------------------------------- the object

  class VerticalTrustFabric {
    const c: Config
    const tx: array<Word>
    const rx: array<Word>
    const mem: array<seq<Word>>
    var epoch: Word
    var lockdown: bool
    var reason: Reason

    ghost predicate Valid()
      reads this, tx, rx, mem
    {
      && c.Valid() && tx != rx && (tx as object) != mem && (rx as object) != mem
      && tx.Length == rx.Length == REQUESTERS && mem.Length == c.layers
      && forall l :: 0 <= l < c.layers ==> |mem[l]| == c.words
    }

    ghost function State(): (s: Soft)
      requires Valid()
      reads this, tx, rx, mem
      ensures s.Shaped(c)
    {
      Soft(tx[..], rx[..], epoch, lockdown, reason, mem[..])
    }

    constructor (c: Config)
      requires c.Valid()
      ensures Valid() && this.c == c && fresh(tx) && fresh(rx) && fresh(mem)
      ensures epoch == 1 && !lockdown && tx[..] == rx[..] == seq(REQUESTERS, _ => 0)
    {
      this.c := c;
      tx := new Word[REQUESTERS](_ => 0);
      rx := new Word[REQUESTERS](_ => 0);
      mem := new seq<Word>[c.layers](_ => seq(c.words, _ => 0));
      epoch, lockdown, reason := 1, false, NoReason;
      new;
      assert tx[..] == seq(REQUESTERS, _ => 0) && rx[..] == seq(REQUESTERS, _ => 0);
    }

    method ZeroizeCriticalTier()
      requires Valid()
      modifies mem
      ensures Valid()
      ensures mem[..] == if c.zeroize then Zeroized(c, old(mem[..])) else old(mem[..])
    {
      if !c.zeroize { return; }
      for l := 0 to c.layers
        invariant forall k :: 0 <= k < c.layers ==>
          mem[k] == if k < l && c.roles[k] == KeyRole then seq(c.words, _ => 0) else old(mem[k])
      {
        if c.roles[l] == KeyRole {
          mem[l] := seq(c.words, _ => 0);
        }
      }
      assert mem[..] == Zeroized(c, old(mem[..]));
    }

    method Trip(why: Reason)
      requires Valid()
      modifies this, mem
      ensures Valid() && State() == Severe(c, old(State()), why)
    {
      reason, lockdown := why, true;
      ZeroizeCriticalTier();
    }

    /** The checks that lock the fabric when they fail. */
    method Authenticate(q: Request) returns (ok: bool)
      requires Valid()
      modifies this, mem
      ensures Valid() && ok == (Finding(c, old(State()), q) == NoReason || Finding(c, old(State()), q) == Policy)
      ensures State() == if ok then old(State()) else Validated(c, old(State()), q)
    {
      hide Succ;
      hide PolicyAllows;
      hide ReqMsg;
      hide Severe;
      hide Finding;
      hide Validated;
      FindingIs(c, State(), q);
      RefusedIs(c, State(), q);
      if lockdown {
        reason := Lockdown;
        return false;
      }
      if !FieldsValid(c, q) {
        Trip(InvalidField);
        return false;
      }
      if q.epoch != epoch {
        Trip(BadEpoch);
        return false;
      }
      if (c.f.cmac)((c.f.reqKey)(q.requester, epoch), ReqMsg(q)) != q.tag {
        Trip(BadTag);
        return false;
      }
      if q.seqNo != Succ(rx[q.requester]) {
        Trip(Replay);
        return false;
      }
      return true;
    }

    /** An authenticated request uses up its sequence number, even if the policy denies it. */
    method ValidateRequest(q: Request) returns (ok: bool)
      requires Valid()
      modifies this, rx, mem
      ensures Valid() && State() == Validated(c, old(State()), q) && ok == (Finding(c, old(State()), q) == NoReason)
    {
      hide Succ;
      hide PolicyAllows;
      hide TagValid;
      hide Zeroized;
      ok := Authenticate(q);
      if ok {
        rx[q.requester] := q.seqNo;
        ok := PolicyAllows(q.requester, q.write, c.roles[q.layer], c.debug);
        reason := if ok then NoReason else Policy;
      }
    }

    method Execute(q: Request) returns (r: Reply)
      requires Valid()
      modifies this, rx, mem
      ensures Valid() && State() == Executed(c, old(State()), q) && r == ReplyTo(c, old(State()), q)
    {
      hide Finding;
      var ok := ValidateRequest(q);
      AcceptedFields(c, old(State()), q);
      AcceptedKeepsMemory(c, old(State()), q);
      hide Validated;
      if !ok { return Reply(0, 0); }
      if q.write {
        mem[q.layer] := mem[q.layer][q.addr := q.data];
        r := Reply(1, q.data);
      } else {
        r := Reply(1, mem[q.layer][q.addr]);
      }
    }

    method Issue(requester: U3, write: bool, layer: U8, addr: U32, data: Word) returns (q: Request)
      requires Valid()
      modifies tx
      ensures Valid() && State() == AfterIssue(c, old(State()), requester)
      ensures q == Issued(c, old(State()), requester, write, layer, addr, data)
    {
      hide Succ;
      hide ReqMsg;
      hide Issued;
      ghost var was := State();
      var seqNo: Word := 0;
      if requester < REQUESTERS {
        seqNo := NextNumber(requester);
      }
      q := Request(requester, write, layer, addr, if write then data else 0, seqNo, epoch,
                   (c.nonce)(requester, seqNo, layer, epoch), ZERO);
      q := q.(tag := (c.f.cmac)((c.f.reqKey)(requester, epoch), ReqMsg(q)));
      IssuedWith(c, was, requester, write, layer, addr, data, seqNo);
    }

    method NextNumber(r: nat) returns (n: Word)
      requires Valid() && r < REQUESTERS
      modifies tx
      ensures Valid() && State() == AfterIssue(c, old(State()), r) && n == Succ(old(tx[r]))
    {
      hide Succ;
      tx[r] := Succ(tx[r]);
      n := tx[r];
    }

    method AdvanceEpoch()
      requires Valid()
      modifies this`epoch, tx, rx
      ensures Valid() && State() == Advanced(c, old(State()))
    {
      epoch := Succ(epoch);
      for i := 0 to REQUESTERS
        invariant epoch == Succ(old(epoch))
        invariant forall k :: 0 <= k < i ==> tx[k] == 0 && rx[k] == 0
      {
        tx[i], rx[i] := 0, 0;
      }
      assert tx[..] == seq(REQUESTERS, _ => 0) && rx[..] == seq(REQUESTERS, _ => 0);
    }
  }

  lemma FindingIs(c: Config, s: Soft, q: Request)
    requires c.Valid() && s.Shaped(c)
    ensures var why := Finding(c, s, q);
      if s.lockdown then why == Lockdown
      else if !FieldsValid(c, q) then why == InvalidField
      else if q.epoch != s.epoch then why == BadEpoch
      else if (c.f.cmac)((c.f.reqKey)(q.requester, s.epoch), ReqMsg(q)) != q.tag then why == BadTag
      else if q.seqNo != Succ(s.rx[q.requester]) then why == Replay
      else why == NoReason || why == Policy
  {
    hide Succ;
    hide PolicyAllows;
    hide ReqMsg;
  }

  lemma RefusedIs(c: Config, s: Soft, q: Request)
    requires c.Valid() && s.Shaped(c)
    ensures var why := Finding(c, s, q);
      why != NoReason && why != Policy ==>
        Validated(c, s, q) == if why == Lockdown then s.(reason := Lockdown) else Severe(c, s, why)
  {
    hide Finding;
    hide Severe;
  }

  lemma IssuedWith(c: Config, s: Soft, requester: U3, write: bool, layer: U8, addr: U32, data: Word, seqNo: Word)
    requires s.Shaped(c) && seqNo == if requester < REQUESTERS then Succ(s.tx[requester]) else 0
    ensures var q := Request(requester, write, layer, addr, if write then data else 0, seqNo, s.epoch,
                             (c.nonce)(requester, seqNo, layer, s.epoch), ZERO);
      Issued(c, s, requester, write, layer, addr, data) ==
      q.(tag := (c.f.cmac)((c.f.reqKey)(requester, s.epoch), ReqMsg(q)))
  {
    hide Succ;
    hide ReqMsg;
  }

  lemma AcceptedFields(c: Config, s: Soft, q: Request)
    requires c.Valid() && s.Shaped(c)
    ensures Finding(c, s, q) == NoReason ==> FieldsValid(c, q) && !s.lockdown
  {
  }

  lemma AcceptedKeepsMemory(c: Config, s: Soft, q: Request)
    requires c.Valid() && s.Shaped(c)
    ensures Finding(c, s, q) == NoReason ==> Validated(c, s, q).mem == s.mem
  {
    hide Finding;
  }
}
