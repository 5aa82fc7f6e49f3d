/** The policy guard: role policy, epoch, freshness, alarms and lockdown. */
module VtfGuard {
  import opened Words
  import opened VtfTypes

  const DENY_NONE: bv8 := 0
  const DENY_LOCKDOWN: bv8 := 1
  const DENY_POLICY: bv8 := 2
  const DENY_AUTH: bv8 := 3
  const DENY_REPLAY: bv8 := 4
  const DENY_EPOCH: bv8 := 5
  const DENY_THERMAL: bv8 := 6
  const DENY_PHYSICAL: bv8 := 7
  const DENY_SENTINEL: bv8 := 8
  const DENY_FAULT: bv8 := 9

  /** Clocked state: two lockdown rails, and per requester the last sequence number with its parity. */
  datatype Guard = Guard(lockdown: bool, lockdownN: bool, lastSeq: seq<Word>, seqPar: seq<bool>) {
    predicate Shaped() { |lastSeq| == REQUESTERS && |seqPar| == REQUESTERS }

    /** Either rail that says "locked" locks. */
    predicate Locked(h: bool) { lockdown || (h && !lockdownN) }

    /** The guard's own registers contradict each other. */
    predicate InternalFault(h: bool)
      requires Shaped()
    {
      h && (lockdown == lockdownN || exists r :: 0 <= r < REQUESTERS && Parity(lastSeq[r]) != seqPar[r])
    }
  }

  datatype Question = Question(
    valid: bool, requester: U3, write: bool, layer: nat, seqNo: Word, epoch: Word, activeEpoch: Word,
    authentic: bool, debug: bool, roles: seq<Role>, physical: bool, sentinel: bool, thermal: bool)

  datatype Verdict = Verdict(allow: bool, reason: bv8, severe: bool, consume: bool)

  predicate PolicyAllows(requester: U3, write: bool, role: Role, debug: bool) {
    if requester == REQ_FETCH then !write && role == ExecRole
    else if requester == REQ_DATA then role == DataRole
    else if requester == REQ_SECURITY then true
    else if requester == REQ_DMA then role == DataRole
    else requester == REQ_DEBUG && debug && (role == ExecRole || role == DataRole)
  }

  function Deny(reason: bv8, severe: bool): Verdict { Verdict(false, reason, severe, false) }

  function Decide(h: bool, g: Guard, q: Question): (v: Verdict)
    requires g.Shaped() && q.layer < |q.roles|
    ensures v.allow ==> v.consume && v.reason == DENY_NONE && !v.severe && q.valid
    ensures g.Locked(h) ==> !v.severe && !v.consume
  {
    var environment := q.physical || q.sentinel || q.thermal || g.InternalFault(h);
    if g.Locked(h) then Verdict(false, if q.valid then DENY_LOCKDOWN else DENY_NONE, false, false)
    else if g.InternalFault(h) then Deny(DENY_FAULT, true)
    else if q.physical then Deny(DENY_PHYSICAL, true)
    else if q.sentinel then Deny(DENY_SENTINEL, true)
    else if q.thermal then Deny(DENY_THERMAL, true)
    else if !q.valid then Deny(DENY_NONE, false)
    else if q.requester >= REQUESTERS then Deny(DENY_POLICY, true)
    else if q.epoch != q.activeEpoch then Deny(DENY_EPOCH, true)
    else if !q.authentic then Deny(DENY_AUTH, true)
    else if q.seqNo != g.lastSeq[q.requester] + 1 then Deny(DENY_REPLAY, true)
    else if !PolicyAllows(q.requester, q.write, q.roles[q.layer], q.debug) then
      Verdict(false, DENY_POLICY, false, true)
    else Verdict(true, DENY_NONE, false, true)
  }

  function Clock(h: bool, g: Guard, q: Question): (n: Guard)
    requires g.Shaped() && q.layer < |q.roles|
    ensures n.Shaped()
  {
    var v := Decide(h, g, q);
    var n := if v.severe then g.(lockdown := true, lockdownN := false) else g;
    var r := q.requester;
    if q.valid && v.consume && r < REQUESTERS then
      n.(lastSeq := n.lastSeq[r := q.seqNo], seqPar := n.seqPar[r := Parity(q.seqNo)])
    else n
  }
}
