/**
 * The tag engine of the fabric is the CMAC unit: clock for clock the unit does what
 * the fabric takes its engine to do, in every run from power-on.
 */
module VtfEngine {
  import opened Words
  import Aes
  import A = AesRtl
  import C = CmacRtl
  import opened VtfTypes
  import opened VtfGuard
  import opened VtfSystem
  import opened VtfInvariant
  import Faults = VtfFaults

  /** The 256 signed bits as two blocks, first byte first. */
  function Head(m: Msg): Block {
    Block(((m.head as bv32) << 16) | ((m.requester as bv32) << 8) | (m.write as bv32),
          ((m.layer as bv32) << 24) | ((m.status as bv32) << 16) | (m.zero as bv32), m.addr as bv32, m.data)
  }

  function Tail(m: Msg): Block { Block(m.seqNo, m.epoch, m.nonce, m.magic) }

  /** The fabric's tags are CMACs of its messages. */
  ghost predicate TagsAreCmacs(f: Fabric) { forall k, m :: TagIsCmac(f, k, m) }

  /** The subkey that the key schedule shows beside each key. */
  type Subkeys = Key -> Block

  ghost predicate SubkeysAreRight(sub: Subkeys) { forall k :: SubkeyIsRight(sub, k) }

  ghost predicate SubkeyIsRight(sub: Subkeys, k: Key) { sub(k) == C.Subkey(k) }

  ghost predicate TagIsCmac(f: Fabric, k: Key, m: Msg) { (f.cmac)(k, m) == C.Cmac32(k, Head(m), Tail(m)) }

  /** What the command registers present, with the subkey that goes with the key. */
  function Ask(sub: Subkeys, cm: Command, clear: bool): C.In {
    C.In(cm.start, clear, cm.key, true, sub(cm.key), Head(cm.msg), Tail(cm.msg))
  }

  /** How far the engine gets, read off the unit. */
  function Timing(sub: Subkeys, u: C.Unit, cm: Command, clear: bool): EngineIn {
    EngineIn(!u.core.busy, C.Next(u, Ask(sub, cm, clear)).done, u.fsm == C.S_IDLE && u.core.busy)
  }

  /** Engine and unit show the same ports, and the unit works on what the engine has. */
  ghost predicate Agree(e: Engine, u: C.Unit, q: C.Request) {
    && C.Sound(u, q, true)
    && e.busy == (u.fsm != C.S_IDLE) && e.done == u.done && e.tag == u.tag
    && (e.busy ==> q == C.Request(e.key, Head(e.msg), Tail(e.msg)))
  }

  /** How the unit's state and tag move. */
  lemma UnitMoves(u: C.Unit, i: C.In)
    requires C.Sane(u)
    ensures var t := C.Next(u, i);
      && (t.done ==> u.fsm == C.S_LAST && t.fsm == C.S_IDLE)
      && (t.fsm != C.S_IDLE <==> C.Accepts(u, i) || (u.fsm != C.S_IDLE && !t.done && !i.clear))
      && (!t.done ==> t.tag == u.tag)
  {
    hide A.CoreNext;
    hide C.Dbl;
    hide Xor;
    hide Aes.BlockOf;
  }

  /**
   * The refinement, in one clock, and its terms: a start is taken only by a unit with no
   * start left pending by a clear. (That no tag is safe without: PendingHitIsWrong.)
   */
  lemma EngineIsUnit(f: Fabric, sub: Subkeys, e: Engine, cm: Command, u: C.Unit, q: C.Request, clear: bool)
    requires TagsAreCmacs(f) && SubkeysAreRight(sub) && Agree(e, u, q)
    requires C.Accepts(u, Ask(sub, cm, clear)) ==> C.Settled(u)
    ensures Agree(EngineNext(f, e, cm, Timing(sub, u, cm, clear), clear),
                  C.Next(u, Ask(sub, cm, clear)), C.RequestNext(u, q, Ask(sub, cm, clear)))
  {
    hide Head;
    hide Tail;
    hide C.Subkey;
    hide C.Cmac32;
    hide C.RightWork;
    hide C.CacheIsRight;
    hide C.Next;
    var i := Ask(sub, cm, clear);
    assert SubkeyIsRight(sub, cm.key);
    C.SoundStep(u, q, i, true);
    UnitMoves(u, i);
    assert TagIsCmac(f, e.key, e.msg);
    hide C.Sane;
    hide C.Sound;
    assert EngineNext(f, e, cm, Timing(sub, u, cm, clear), clear).tag == C.Next(u, i).tag;
  }

  // ----------------------------------------------------------- the fabric on the unit

  /** The fabric with the unit beside the engine it is taken for. */
  datatype Board = Board(s: Sys, u: C.Unit, q: C.Request)

  /** The inputs of the clock, with the engine's progress read off the unit. */
  function Timed(f: Fabric, sub: Subkeys, b: Board, i: Inputs): (j: Inputs)
    requires b.s.Shaped() && i.Shaped()
    ensures j.Shaped()
  {
    i.(eng := Timing(sub, b.u, b.s.c.cm, Judge(f, b.s, i).severe))
  }

  /** What the fabric presents to the unit; a severe event clears it. */
  function UnitIn(f: Fabric, sub: Subkeys, b: Board, i: Inputs): C.In
    requires b.s.Shaped() && i.Shaped()
  {
    Ask(sub, b.s.c.cm, Judge(f, b.s, i).severe)
  }

  function BoardNext(f: Fabric, sub: Subkeys, b: Board, i: Inputs): (n: Board)
    requires b.s.Shaped() && i.Shaped()
    ensures n.s.Shaped()
  {
    Board(Next(f, b.s, Timed(f, sub, b, i)), C.Next(b.u, UnitIn(f, sub, b, i)), C.RequestNext(b.u, b.q, UnitIn(f, sub, b, i)))
  }

  /** Unit and engine agree, and a start left pending in the unit meets no start from the fabric. */
  ghost predicate OnBoard(f: Fabric, b: Board) {
    && b.s.Shaped() && b.s.c.fsm.RailsAgree() && Handshake(b.s.c, b.s.engine) && Agree(b.s.engine, b.u, b.q)
    && (b.u.fsm == C.S_IDLE && b.u.start ==> !b.s.c.cm.start)
  }

  lemma JudgeIgnoresTiming(f: Fabric, sub: Subkeys, b: Board, i: Inputs)
    requires b.s.Shaped() && i.Shaped()
    ensures Judge(f, b.s, Timed(f, sub, b, i)) == Judge(f, b.s, i)
  {
    hide Decide;
    hide Timing;
  }

  /** A severe event while the engine is busy takes the fabric out of the waiting state, with no start. */
  lemma SevereStopsStarts(f: Fabric, s: Sys, i: Inputs)
    requires s.Shaped() && i.Shaped() && s.c.fsm.RailsAgree() && Handshake(s.c, s.engine)
    requires s.engine.busy && Judge(f, s, i).severe
    ensures !NextCtl(f, s, i).cm.start
  {
    ControlIs(f, s, i);
    hide Judge;
    hide LockdownOut;
    hide Control;
    hide NextCtl;
    hide Reply;
    hide TagMatches;
  }

  lemma UnitIsSane(e: Engine, u: C.Unit, q: C.Request)
    requires Agree(e, u, q)
    ensures C.Sane(u)
  {
    hide C.RightWork;
  }

  lemma BoardStep(f: Fabric, sub: Subkeys, b: Board, i: Inputs)
    requires TagsAreCmacs(f) && SubkeysAreRight(sub) && OnBoard(f, b) && i.Shaped()
    ensures OnBoard(f, BoardNext(f, sub, b, i))
  {
    var j, ask := Timed(f, sub, b, i), UnitIn(f, sub, b, i);
    JudgeIgnoresTiming(f, sub, b, i);
    HandshakeStep(f, b.s, j);
    EngineIsUnit(f, sub, b.s.engine, b.s.c.cm, b.u, b.q, Judge(f, b.s, i).severe);
    UnitIsSane(b.s.engine, b.u, b.q);
    C.PendingExactly(b.u, ask);
    if b.s.engine.busy && Judge(f, b.s, i).severe { SevereStopsStarts(f, b.s, j); }
    hide Judge;
    hide NextCtl;
    hide EngineNext;
    hide StoreNext;
    hide Clock;
    hide C.Next;
    hide C.Sane;
    hide C.Sound;
    hide TagsAreCmacs;
    hide SubkeysAreRight;
    hide Handshake;
    hide Timing;
    hide C.Subkey;
    hide Head;
    hide Tail;
  }

  predicate SamePorts(b: Board) {
    && C.Busy(b.u) == (b.s.engine.busy || (b.u.fsm == C.S_IDLE && b.u.core.busy))
    && b.u.done == b.s.engine.done && b.u.tag == b.s.engine.tag
  }

  /** In every clock of the run the unit's ports are the engine's. */
  ghost predicate PortsAgree(f: Fabric, sub: Subkeys, b: Board, ins: seq<Inputs>)
    requires b.s.Shaped() && Faults.AllShaped(ins)
    decreases |ins|
  {
    SamePorts(b) && (ins == [] || PortsAgree(f, sub, BoardNext(f, sub, b, ins[0]), ins[1..]))
  }

  lemma BoardPorts(f: Fabric, b: Board)
    requires OnBoard(f, b)
    ensures b.s.Shaped() && SamePorts(b)
  {
    hide Handshake;
    hide C.Sound;
  }

  /**
   * Main result: from power-on, under any inputs, the unit under the fabric behaves as
   * the engine it is taken for. The terms of the refinement always hold, because after
   * a severe event that stops the unit in its work the fabric starts nothing.
   */
  lemma {:induction false} UnitIsTheEngine(f: Fabric, sub: Subkeys, b: Board, ins: seq<Inputs>)
    requires TagsAreCmacs(f) && SubkeysAreRight(sub) && OnBoard(f, b) && b.s.Shaped() && Faults.AllShaped(ins)
    ensures PortsAgree(f, sub, b, ins)
    decreases |ins|
  {
    hide OnBoard;
    hide BoardNext;
    hide TagsAreCmacs;
    hide SubkeysAreRight;
    hide SamePorts;
    BoardPorts(f, b);
    if ins != [] {
      BoardStep(f, sub, b, ins[0]);
      UnitIsTheEngine(f, sub, BoardNext(f, sub, b, ins[0]), ins[1..]);
    }
  }

  lemma PowerOnIsOnBoard(f: Fabric, s: Sys, g: Ghost, q: C.Request)
    requires Reset(s, g) && s.engine.tag == ZERO
    ensures OnBoard(f, Board(s, C.RESET, q))
  {
    C.ResetIsSound(q, true);
    hide C.Sound;
  }
}
