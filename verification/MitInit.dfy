/**
 * Initialisation of the hardware engine, clock by clock over its real ciphers: two
 * subkeys, then every node of the tree over zero counters, and what it leaves behind.
 */
module MitInit {
  import opened Words
  import Aes
  import A = AesRtl
  import C = CmacRtl
  import opened MitTree
  import Spec = MitSpec
  import Built = MitEngine
  import Rtl = MitRtl
  import Quiet = MitQuiet
  import opened MitCores

  datatype Phase = S_K1T | S_K1M | S_BUILD | S_BUILD_W | S_IDLE

  /** The registers initialisation uses, and the stored nodes it writes and reads back. */
  datatype Boot = Boot(phase: Phase, k: Keys, lvl: nat, bj: nat, root: Block, node: seq<Block>, cm: C.Unit, aes: A.Core)

  predicate Building(s: Boot) { s.phase == S_BUILD || s.phase == S_BUILD_W }

  predicate Shaped(depth: nat, s: Boot) {
    && 2 <= depth <= 32 && |s.node| + 2 == Pow2(depth)
    && (Building(s) ==> 1 <= s.lvl <= depth && s.bj < Pow2(depth - s.lvl))
  }

  /** The two nodes, or leaves with a zero counter, under the node being made. */
  function Children(depth: nat, s: Boot): (Block, Block)
    requires Shaped(depth, s) && Building(s)
  {
    Pow2Monotone(depth - s.lvl, 31);
    Pow2Is32();
    if s.lvl == 1 then (Leaf(2 * s.bj, 0), Leaf(2 * s.bj + 1, 0))
    else
      SlotsDisjoint(depth, s.lvl - 1, 2 * s.bj, s.lvl - 1, 2 * s.bj + 1);
      SlotsDisjoint(depth, s.lvl - 1, 2 * s.bj + 1, s.lvl - 1, 2 * s.bj);
      (s.node[Off(depth, s.lvl - 1) + 2 * s.bj], s.node[Off(depth, s.lvl - 1) + 2 * s.bj + 1])
  }

  function CmAsk(depth: nat, s: Boot): C.In
    requires Shaped(depth, s)
  {
    var msg := if s.phase == S_BUILD then Children(depth, s) else (ZERO, ZERO);
    C.In(s.phase == S_BUILD && !C.Busy(s.cm), false, s.k.tree, true, s.k.k1Tree, msg.0, msg.1)
  }

  function AesAsk(s: Boot): A.CoreIn {
    A.CoreIn((s.phase == S_K1T || s.phase == S_K1M) && !s.aes.busy && !s.aes.done,
             if s.phase == S_K1M then s.k.mac else s.k.tree, ZERO)
  }

  /** The encrypted zero block has come: a subkey is kept. */
  function Keyed(s: Boot, out: Block): Boot {
    if s.phase == S_K1T then s.(k := s.k.(k1Tree := C.Dbl(out)), phase := S_K1M)
    else s.(k := s.k.(k1Mac := C.Dbl(out)), lvl := 1, bj := 0, phase := S_BUILD)
  }

  /** A node has come: it is stored, or is the root. */
  function Placed(depth: nat, s: Boot, tag: Block): Boot
    requires Shaped(depth, s) && Building(s)
  {
    if s.lvl == depth then s.(root := tag, phase := S_IDLE)
    else
      SlotsDisjoint(depth, s.lvl, s.bj, s.lvl, s.bj);
      var t := s.(node := s.node[Off(depth, s.lvl) + s.bj := tag], phase := S_BUILD);
      if s.bj == Pow2(depth - s.lvl) - 1 then t.(bj := 0, lvl := s.lvl + 1) else t.(bj := s.bj + 1)
  }

  function Control(depth: nat, s: Boot): (t: Boot)
    requires Shaped(depth, s)
    ensures Shaped(depth, t) && t.cm == s.cm && t.aes == s.aes
  {
    match s.phase
    case S_K1T => if s.aes.done then Keyed(s, Aes.BlockOf(s.aes.result)) else s
    case S_K1M => if s.aes.done then Keyed(s, Aes.BlockOf(s.aes.result)) else s
    case S_BUILD => if C.Busy(s.cm) then s else s.(phase := S_BUILD_W)
    case S_BUILD_W => if s.cm.done then Placed(depth, s, s.cm.tag) else s
    case S_IDLE => s
  }

  /** One clock edge. */
  function BootNext(depth: nat, s: Boot): (t: Boot)
    requires Shaped(depth, s)
    ensures Shaped(depth, t)
  {
    var ask := AesAsk(s);
    Control(depth, s).(cm := C.Next(s.cm, CmAsk(depth, s)), aes := A.CoreNext(s.aes, ask.start, ask.key, ask.x))
  }

  function Steps(depth: nat, s: Boot, n: nat): (t: Boot)
    requires Shaped(depth, s)
    ensures Shaped(depth, t)
    decreases n
  {
    if n == 0 then s else Steps(depth, BootNext(depth, s), n - 1)
  }

  lemma {:induction false} StepsAdd(depth: nat, s: Boot, m: nat, n: nat)
    requires Shaped(depth, s)
    ensures Steps(depth, s, m + n) == Steps(depth, Steps(depth, s, m), n)
    decreases m
  {
    hide BootNext;
    hide Shaped;
    if m > 0 { StepsAdd(depth, BootNext(depth, s), m - 1, n); }
  }

  // ------------------------------------------------------------------- the ciphers

  predicate AtRest(u: C.Unit) { C.Sane(u) && u.fsm == C.S_IDLE && C.Settled(u) && !u.core.busy && !u.done }

  predicate CoreSane(a: A.Core) { a.busy ==> 1 <= a.round <= 10 && !a.done }

  predicate CoreIdle(a: A.Core) { !a.busy && !a.done }

  /** An idle unit whose core, if a cleared request left it running, stops within `m` clocks. */
  predicate Settles(u: C.Unit, m: int) {
    && C.Sane(u) && u.fsm == C.S_IDLE
    && (u.start || u.done ==> m >= 12) && (u.core.busy ==> m > 10 - u.core.round)
  }

  lemma SettlesStep(u: C.Unit, m: int, i: C.In)
    requires Settles(u, m) && !i.start && !i.clear
    ensures Settles(C.Next(u, i), m - 1)
  {
    C.SaneStep(u, i);
    hide Aes.AddRoundKey;
    hide Aes.NextKey;
    hide A.SubShift;
    hide A.MixAll;
    hide Aes.StateOf;
    hide A.RconOf;
  }

  /** The unit will answer with the job's tag in `n` clocks, or does so now. */
  ghost predicate Answers(u: C.Unit, j: C.Job, n: nat) {
    C.Sane(u) && if n == 0 then C.Finished(u, j) else !u.done && C.Working(u, j, n)
  }

  lemma AnswersStep(u: C.Unit, j: C.Job, n: nat, i: C.In)
    requires Answers(u, j, n) && n > 0 && !i.clear
    ensures Answers(C.Next(u, i), j, n - 1)
  {
    hide C.Sane;
    hide C.Working;
    hide C.Next;
    hide C.Finished;
    C.SaneStep(u, i);
    C.WorkStep(u, j, n, i);
    FinishedIs(u, i, j);
  }

  lemma FinishedIs(u: C.Unit, i: C.In, j: C.Job)
    ensures C.Finished(u, j) ==> u.done
  {
  }

  lemma AnswersAccept(u: C.Unit, i: C.In)
    requires AtRest(u) && i.start && !i.clear && i.k1Valid
    ensures Answers(C.Next(u, i), C.Job(i.key, i.m2, Aes.Encrypt(i.key, i.m1), i.k1), 24)
  {
    hide Aes.Encrypt;
    hide C.Working;
    hide C.Sane;
    hide C.Next;
    C.SaneStep(u, i);
    C.AcceptWorks(u, i);
  }

  // -------------------------------------------------------------------- the subkeys

  /** What the core delivers first: an operation it was left with comes before the one asked for. */
  function FirstOut(s: Boot): Block
    requires CoreSane(s.aes)
  {
    if s.aes.busy then Aes.BlockOf(A.Finish(s.aes.s, s.aes.k, s.aes.round))
    else if s.aes.done then Aes.BlockOf(s.aes.result)
    else Aes.Encrypt(AesAsk(s).key, ZERO)
  }

  function FirstWait(s: Boot): nat
    requires CoreSane(s.aes)
  {
    if s.aes.busy then 12 - s.aes.round else if s.aes.done then 1 else 12
  }

  lemma {:induction false} KeyStage(depth: nat, s: Boot, out: Block, n: nat, m: int)
    requires Shaped(depth, s) && (s.phase == S_K1T || s.phase == S_K1M) && CoreSane(s.aes) && Settles(s.cm, m)
    requires A.Delivers(s.aes, AesAsk(s).start, AesAsk(s).key, ZERO, out, n)
    ensures var t := Steps(depth, s, n + 1);
      t == Keyed(s, out).(cm := t.cm, aes := t.aes) && CoreIdle(t.aes) && Settles(t.cm, m - n - 1)
    decreases n
  {
    hide Aes.BlockOf;
    hide Aes.Encrypt;
    hide A.Finish;
    hide A.CoreNext;
    hide C.Next;
    hide C.Sane;
    hide C.Dbl;
    hide Pow2;
    var t := BootNext(depth, s);
    SettlesStep(s.cm, m, CmAsk(depth, s));
    var ask := AesAsk(s);
    if n == 0 {
      CoreRests(s.aes, ask.key, ask.x);
      assert Steps(depth, s, 1) == t;
    } else {
      A.DeliversStep(s.aes, ask.start, ask.key, ZERO, out, n, AesAsk(t).start, AesAsk(t).key, ZERO);
      KeyStage(depth, t, out, n - 1, m - 1);
    }
  }

  // ----------------------------------------------------------------------- the nodes

  /** The tag of a node, from the subkey the engine has. */
  function NodeTag(k: Keys, m: (Block, Block)): Block { TagOf(k, Rtl.TreeKey, m.0, m.1) }

  function NodeJob(k: Keys, m: (Block, Block)): C.Job {
    C.Job(k.tree, m.1, Aes.Encrypt(k.tree, m.0), k.k1Tree)
  }

  predicate CiphersRest(s: Boot) { AtRest(s.cm) && CoreIdle(s.aes) }

  lemma {:induction false} WaitStage(depth: nat, s: Boot, j: C.Job, n: nat)
    requires Shaped(depth, s) && s.phase == S_BUILD_W && Answers(s.cm, j, n) && CoreIdle(s.aes)
    ensures var t := Steps(depth, s, n + 1);
      t == Placed(depth, s, j.Tag()).(cm := t.cm, aes := t.aes) && CiphersRest(t)
    decreases n
  {
    hide C.Next;
    hide C.Sane;
    hide C.Job.Tag;
    hide A.CoreNext;
    hide Pow2;
    hide Off;
    hide Placed;
    var t, ask := BootNext(depth, s), CmAsk(depth, s);
    CoreRests(s.aes, AesAsk(s).key, ZERO);
    if n == 0 {
      FinishedRests(s.cm, j);
      CmRests(s.cm, ask);
      PlacedKeepsCiphers(depth, s, j.Tag());
      assert Steps(depth, s, 1) == t;
    } else {
      AnswersStep(s.cm, j, n, ask);
      NotDone(s.cm, j, n);
      WaitStage(depth, t, j, n - 1);
      PlacedIgnoresCiphers(depth, s, t, j.Tag());
    }
  }

  lemma NotDone(u: C.Unit, j: C.Job, n: nat)
    requires Answers(u, j, n) && n > 0
    ensures !u.done
  {
  }

  lemma PlacedKeepsCiphers(depth: nat, s: Boot, tag: Block)
    requires Shaped(depth, s) && Building(s)
    ensures Placed(depth, s, tag).cm == s.cm && Placed(depth, s, tag).aes == s.aes
  {
  }

  lemma PlacedIgnoresCiphers(depth: nat, s: Boot, t: Boot, tag: Block)
    requires Shaped(depth, s) && s.phase == S_BUILD_W && t == s.(cm := t.cm, aes := t.aes)
    ensures Placed(depth, t, tag) == Placed(depth, s, tag).(cm := t.cm, aes := t.aes)
  {
  }

  /** One node takes 26 clocks. */
  lemma NodeStage(depth: nat, s: Boot)
    requires Shaped(depth, s) && s.phase == S_BUILD && CiphersRest(s)
    ensures var t := Steps(depth, s, 26);
      t == Placed(depth, s, NodeTag(s.k, Children(depth, s))).(cm := t.cm, aes := t.aes) && CiphersRest(t)
  {
    hide C.Next;
    hide C.Sane;
    hide A.CoreNext;
    hide Aes.Encrypt;
    hide Children;
    hide Pow2;
    hide Off;
    hide Placed;
    hide Answers;
    hide C.TagFrom;
    var t, j, ask := BootNext(depth, s), NodeJob(s.k, Children(depth, s)), CmAsk(depth, s);
    CoreRests(s.aes, AesAsk(s).key, ZERO);
    AnswersAccept(s.cm, ask);
    assert t == s.(phase := S_BUILD_W, cm := t.cm, aes := t.aes);
    WaitStage(depth, t, j, 24);
    PlacedWaits(depth, s, t, j.Tag());
  }

  lemma PlacedWaits(depth: nat, s: Boot, t: Boot, tag: Block)
    requires Shaped(depth, s) && s.phase == S_BUILD && t == s.(phase := S_BUILD_W, cm := t.cm, aes := t.aes)
    ensures Placed(depth, t, tag) == Placed(depth, s, tag).(cm := t.cm, aes := t.aes)
  {
  }

  function Zeros(depth: nat): (z: seq<Word>)
    ensures |z| == Pow2(depth) && forall i :: 0 <= i < |z| ==> z[i] == 0
  {
    seq(Pow2(depth), _ => 0)
  }

  /** All nodes before the one at hand are stored. */
  ghost predicate SoFar(e: Engine, depth: nat, s: Boot)
    requires Shaped(depth, s) && Building(s)
  {
    Built.NodesUpTo(e, depth, Zeros(depth), s.node, s.lvl) && Built.StoredTo(e, depth, Zeros(depth), s.node, s.lvl, s.bj)
  }

  /** The nodes still to make, this one included. */
  function Todo(depth: nat, s: Boot): nat
    requires Shaped(depth, s) && Building(s)
  {
    2 * Pow2(depth - s.lvl) - 1 - s.bj
  }

  /** A node of the tree over zero counters. */
  ghost function Node(e: Engine, depth: nat, l: nat, j: nat): Block
    requires 1 <= depth <= 32 && l <= depth && j < Pow2(depth - l)
  {
    Level(e, depth, Zeros(depth), l)[j]
  }

  lemma LeafNode(e: Engine, depth: nat, j: U32)
    requires 1 <= depth <= 32 && j < Pow2(depth)
    ensures Node(e, depth, 0, j) == Leaf(j, 0)
  {
    hide Leaf;
  }

  lemma NodeIsHash(e: Engine, depth: nat, l: nat, j: nat)
    requires 1 <= depth <= 32 && 1 <= l <= depth && j < Pow2(depth - l)
    ensures 2 * j + 1 < Pow2(depth - (l - 1))
    ensures Node(e, depth, l, j) == Hash(e, (Node(e, depth, l - 1, 2 * j), Node(e, depth, l - 1, 2 * j + 1)))
  {
    hide Zeros;
    hide Leaf;
    hide Level;
    hide Up;
    Built.NextLevel(e, depth, Zeros(depth), l);
  }

  lemma StoredNodeIs(e: Engine, depth: nat, s: Boot, l: nat, j: nat)
    requires Shaped(depth, s) && Building(s) && SoFar(e, depth, s) && 1 <= l < s.lvl && j < Pow2(depth - l)
    ensures Off(depth, l) + j < |s.node| && s.node[Off(depth, l) + j] == Node(e, depth, l, j)
  {
    hide Zeros;
    hide Level;
    SlotsDisjoint(depth, l, j, l, j);
    hide Off;
    hide Pow2;
    assert Spec.NodeIs(e, depth, Zeros(depth), s.node, l, j);
  }

  lemma LeavesFit(depth: nat, l: nat, j: nat)
    requires 1 <= l <= depth <= 32 && j < Pow2(depth - l)
    ensures 2 * j + 1 < 0x1_0000_0000 && (l == 1 ==> 2 * j + 1 < Pow2(depth))
  {
    Pow2Monotone(depth - l, 31);
    Pow2Is32();
    assert Pow2(32) == 2 * Pow2(31);
    if l == 1 { assert Pow2(depth) == 2 * Pow2(depth - 1); }
  }

  /** What the unit computes is the node of the tree over zero counters. */
  lemma HashIsNode(e: Engine, depth: nat, s: Boot)
    requires Shaped(depth, s) && Building(s) && SoFar(e, depth, s)
    ensures Hash(e, Children(depth, s)) == Node(e, depth, s.lvl, s.bj)
  {
    hide Leaf;
    hide Hash;
    hide Node;
    hide SoFar;
    hide Off;
    hide Pow2;
    LeavesFit(depth, s.lvl, s.bj);
    NodeIsHash(e, depth, s.lvl, s.bj);
    if s.lvl == 1 {
      LeafNode(e, depth, 2 * s.bj);
      LeafNode(e, depth, 2 * s.bj + 1);
    } else {
      StoredNodeIs(e, depth, s, s.lvl - 1, 2 * s.bj);
      StoredNodeIs(e, depth, s, s.lvl - 1, 2 * s.bj + 1);
    }
  }

  /** Placing a right node moves the build one node on, and at the root ends it. */
  lemma PlacedGoesOn(e: Engine, depth: nat, s: Boot)
    requires Shaped(depth, s) && Building(s) && SoFar(e, depth, s)
    ensures var t := Placed(depth, s, Node(e, depth, s.lvl, s.bj));
      && t.k == s.k
      && if s.lvl < depth then t.phase == S_BUILD && Shaped(depth, t) && SoFar(e, depth, t) && Todo(depth, t) == Todo(depth, s) - 1
         else t.phase == S_IDLE && Todo(depth, s) == 1 && t.root == Node(e, depth, depth, 0) && t.node == s.node
  {
    hide Zeros;
    hide Level;
    hide Off;
    hide Built.NodesUpTo;
    hide Built.StoredTo;
    var z, v := Zeros(depth), Node(e, depth, s.lvl, s.bj);
    if s.lvl < depth {
      SlotsDisjoint(depth, s.lvl, s.bj, s.lvl, s.bj);
      var t := Placed(depth, s, v);
      Built.StoredNode(e, depth, z, s.node, t.node, s.lvl, s.bj);
      if s.bj == Pow2(depth - s.lvl) - 1 {
        Built.LevelStored(e, depth, z, t.node, s.lvl);
        Built.LevelStarts(e, depth, z, t.node, s.lvl + 1);
      }
    }
  }

  /** After the 26 clocks of a node the build is one node on, or complete. */
  ghost predicate NodeMade(depth: nat, s: Boot, t: Boot)
    requires Shaped(depth, s) && Building(s) && Shaped(depth, t)
  {
    && t.k == s.k && CiphersRest(t)
    && if s.lvl < depth then t.phase == S_BUILD && SoFar(EngineOf(t.k), depth, t) && Todo(depth, t) == Todo(depth, s) - 1
       else t.phase == S_IDLE && Todo(depth, s) == 1 && TreeIs(EngineOf(t.k), depth, t)
  }

  lemma MakeNode(depth: nat, s: Boot)
    requires Shaped(depth, s) && s.phase == S_BUILD && CiphersRest(s) && SoFar(EngineOf(s.k), depth, s)
    ensures NodeMade(depth, s, Steps(depth, s, 26))
  {
    hide Steps;
    hide C.Sane;
    hide Children;
    hide Pow2;
    hide Off;
    hide Placed;
    hide SoFar;
    hide EngineOf;
    hide Node;
    hide NodeTag;
    hide CiphersRest;
    hide TreeIs;
    hide Hash;
    var e := EngineOf(s.k);
    NodeStage(depth, s);
    TagIsHash(s.k, Children(depth, s));
    HashIsNode(e, depth, s);
    PlacedGoesOn(e, depth, s);
    var u, t := Placed(depth, s, Node(e, depth, s.lvl, s.bj)), Steps(depth, s, 26);
    if s.lvl < depth { SoFarIgnoresCiphers(e, depth, u, t); } else { TreeComplete(e, depth, s, t); }
  }

  /** From any node on, the tree is complete after 26 clocks for each node still to make. */
  lemma {:induction false} BuildRun(depth: nat, s: Boot)
    requires Shaped(depth, s) && s.phase == S_BUILD && CiphersRest(s) && SoFar(EngineOf(s.k), depth, s)
    ensures var t := Steps(depth, s, 26 * Todo(depth, s));
      t.phase == S_IDLE && t.k == s.k && CiphersRest(t) && TreeIs(EngineOf(s.k), depth, t)
    decreases Todo(depth, s)
  {
    hide Steps;
    hide Pow2;
    hide SoFar;
    hide EngineOf;
    hide CiphersRest;
    hide TreeIs;
    hide Todo;
    MakeNode(depth, s);
    var t := Steps(depth, s, 26);
    if s.lvl < depth {
      BuildRun(depth, t);
      StepsAdd(depth, s, 26, 26 * Todo(depth, t));
    }
  }

  lemma TagIsHash(k: Keys, m: (Block, Block))
    ensures NodeTag(k, m) == Hash(EngineOf(k), m)
  {
    hide TagOf;
  }

  lemma SoFarIgnoresCiphers(e: Engine, depth: nat, s: Boot, t: Boot)
    requires Shaped(depth, s) && Building(s) && SoFar(e, depth, s) && t == s.(cm := t.cm, aes := t.aes)
    ensures Shaped(depth, t) && Building(t) && SoFar(e, depth, t) && Todo(depth, t) == Todo(depth, s)
  {
    hide Pow2;
  }

  /** The root register and the stored nodes are those of the tree over zero counters. */
  ghost predicate TreeIs(e: Engine, depth: nat, s: Boot)
    requires Shaped(depth, s)
  {
    s.root == Root(e, depth, Zeros(depth)) && Spec.NodesAre(e, depth, Zeros(depth), s.node)
  }

  lemma TreeComplete(e: Engine, depth: nat, s: Boot, t: Boot)
    requires Shaped(depth, s) && Building(s) && s.lvl == depth && SoFar(e, depth, s)
    requires Shaped(depth, t) && t.root == Node(e, depth, depth, 0) && t.node == s.node
    ensures TreeIs(e, depth, t)
  {
    hide Zeros;
    hide Level;
    hide Spec.NodeIs;
  }

  /** The last clock of an initialisation that finds the core as it is in `s`. */
  function Duration(depth: nat, s: Boot): nat
    requires CoreSane(s.aes)
  {
    FirstWait(s) + 12 + 26 * (Pow2(depth) - 1)
  }

  /**
   * Main result: from any state of its ciphers, initialisation ends at exactly this
   * clock with the root and the stored nodes of the tree over zero counters. Its tree
   * subkey comes from whatever block the AES core delivers first.
   */
  lemma InitBuildsTree(depth: nat, s: Boot)
    requires Shaped(depth, s) && s.phase == S_K1T && CoreSane(s.aes) && C.Sane(s.cm) && s.cm.fsm == C.S_IDLE
    ensures var t := Steps(depth, s, Duration(depth, s));
      && t.phase == S_IDLE && CiphersRest(t) && TreeIs(EngineOf(t.k), depth, t)
      && t.k == s.k.(k1Tree := C.Dbl(FirstOut(s)), k1Mac := C.Subkey(s.k.mac))
  {
    hide Steps;
    hide C.Sane;
    hide C.Dbl;
    hide Aes.Encrypt;
    hide Aes.BlockOf;
    hide A.Finish;
    hide Pow2;
    hide EngineOf;
    hide TreeIs;
    hide SoFar;
    var n: int := FirstWait(s);
    KeyStage(depth, s, FirstOut(s), n - 1, 12);
    var u := Steps(depth, s, n);
    KeyStage(depth, u, Aes.Encrypt(s.k.mac, ZERO), 11, 12 - n);
    var v := Steps(depth, u, 12);
    Settled(v.cm, -n);
    FirstNode(EngineOf(v.k), depth, v);
    BuildRun(depth, v);
    StepsAdd(depth, s, n, 12);
    StepsAdd(depth, s, n + 12, 26 * Todo(depth, v));
  }

  lemma Settled(u: C.Unit, m: int)
    requires Settles(u, m) && m < 0
    ensures AtRest(u)
  {
  }

  lemma FirstNode(e: Engine, depth: nat, s: Boot)
    requires Shaped(depth, s) && s.phase == S_BUILD && s.lvl == 1 && s.bj == 0
    ensures SoFar(e, depth, s) && Todo(depth, s) == Pow2(depth) - 1
  {
    hide Level;
    hide Zeros;
    hide Off;
    hide Spec.NodeIs;
    hide Built.StoredTo;
    Built.LevelStarts(e, depth, Zeros(depth), s.node, 1);
    assert Pow2(depth) == 2 * Pow2(depth - 1);
    hide Pow2;
  }

  /**
   * The tags are CMACs exactly if the AES core is idle when initialisation starts, or
   * what it was left with happens to encrypt to the same block.
   */
  lemma SubkeysExactly(depth: nat, s: Boot)
    requires Shaped(depth, s) && s.phase == S_K1T && CoreSane(s.aes) && C.Sane(s.cm) && s.cm.fsm == C.S_IDLE
    ensures Steps(depth, s, Duration(depth, s)).k.Derived() <==> CoreIdle(s.aes) || FirstOut(s) == Aes.Encrypt(s.k.tree, ZERO)
  {
    hide Steps;
    hide C.Sane;
    hide C.Dbl;
    hide Aes.Encrypt;
    hide Aes.BlockOf;
    hide A.Finish;
    hide Pow2;
    hide TreeIs;
    hide Duration;
    InitBuildsTree(depth, s);
    C.DblInjective(FirstOut(s), Aes.Encrypt(s.k.tree, ZERO));
  }

  // -------------------------------------------------------------- what it leaves behind

  ghost function Fresh(depth: nat): Spec.History { Spec.History(Zeros(depth), seq(Pow2(depth), _ => ZERO), map[]) }

  /** Storage as initialisation leaves it: everything cleared, and the nodes it wrote. */
  ghost function Cleared(depth: nat, s: Boot): Spec.Store {
    Spec.Store(seq(Pow2(depth), _ => ZERO), seq(Pow2(depth), _ => ZERO), Zeros(depth), s.node)
  }

  /** The chip goes on with the registers of a finished initialisation; the others hold anything. */
  ghost predicate GoesOn(depth: nat, s: Boot, c: Chip) {
    && Rtl.Shaped(depth, Seen(c)) && c.cm == s.cm && c.aes == s.aes
    && c.r.fsm == Rtl.S_IDLE && c.r.root == s.root && !c.r.tamper
  }

  lemma FreshIsRecorded(e: Engine, depth: nat)
    requires 2 <= depth <= 32
    ensures Sized(depth, Fresh(depth).ctrs) && Spec.Recorded(e, Fresh(depth))
    ensures |Fresh(depth).plain| == |Fresh(depth).ctrs| == Pow2(depth)
  {
    SizedFits(depth, Zeros(depth));
    hide Spec.KeyStream;
    hide Used;
  }

  /** The trusted state of the adversary theorem and the tracking state of the refinement hold at the start. */
  lemma InitLeavesSound(k: Keys, depth: nat, s: Boot, c: Chip)
    requires Shaped(depth, s) && CiphersRest(s) && TreeIs(EngineOf(k), depth, s) && GoesOn(depth, s, c)
    ensures Linked(k, c, 0) && Rtl.Inv(EngineOf(k), depth, Seen(c), Fresh(depth))
    ensures var st := Cleared(depth, s);
      Quiet.Tracks(EngineOf(k), depth, Seen(c), st, Spec.Mit(st, s.root, false))
  {
    hide EngineOf;
    hide Root;
    hide Zeros;
    hide Spec.Recorded;
    hide Spec.NodesAre;
    hide Aes.BlockOf;
    hide Pow2;
    hide C.Sane;
    FreshIsRecorded(EngineOf(k), depth);
    AtRestSane(s.cm);
  }

  lemma AtRestSane(u: C.Unit)
    requires AtRest(u)
    ensures C.Sane(u)
  {
  }

  /** Every answer of the run is right, and over undisturbed storage the software engine's. */
  ghost predicate RunsWell(k: Keys, depth: nat, s: Boot, c: Chip, ins: seq<Rtl.In>)
    requires Shaped(depth, s) && Rtl.Shaped(depth, Seen(c)) && c.r.fsm == Rtl.S_IDLE
  {
    var h, st := Fresh(depth), Cleared(depth, s);
    FreshIsRecorded(EngineOf(k), depth);
    && ChipIsRight(k, depth, c, h, ins)
    && (Undisturbed(k, depth, c, st, ins) ==> ChipRefines(k, depth, c, st, Spec.Mit(st, s.root, false), ins))
  }

  lemma SoundRunsWell(k: Keys, depth: nat, s: Boot, c: Chip, ins: seq<Rtl.In>)
    requires Shaped(depth, s) && GoesOn(depth, s, c) && InRange(depth, ins)
    requires Linked(k, c, 0) && Rtl.Inv(EngineOf(k), depth, Seen(c), Fresh(depth))
    requires var st := Cleared(depth, s); Quiet.Tracks(EngineOf(k), depth, Seen(c), st, Spec.Mit(st, s.root, false))
    ensures RunsWell(k, depth, s, c, ins)
  {
    hide Linked;
    hide EngineOf;
    hide ChipIsRight;
    hide ChipRefines;
    hide Undisturbed;
    hide Rtl.Inv;
    hide Quiet.Tracks;
    hide InRange;
    hide Pow2;
    hide Zeros;
    hide Rtl.Shaped;
    hide Aes.BlockOf;
    var st := Cleared(depth, s);
    FreshIsRecorded(EngineOf(k), depth);
    EveryChipRunIsRight(k, depth, c, 0, Fresh(depth), ins);
    if Undisturbed(k, depth, c, st, ins) {
      ChipRefinesSoftware(k, depth, c, 0, st, Spec.Mit(st, s.root, false), ins);
    }
  }

  /**
   * Main result, from initialisation on: whatever the ciphers were doing before, every
   * answer of every later run is right short of a collision or forgery, and over
   * undisturbed storage every access is the software engine's.
   */
  lemma InitThenRun(depth: nat, s: Boot, c: Chip, ins: seq<Rtl.In>)
    requires Shaped(depth, s) && s.phase == S_K1T && CoreSane(s.aes) && C.Sane(s.cm) && s.cm.fsm == C.S_IDLE
    requires GoesOn(depth, Steps(depth, s, Duration(depth, s)), c) && InRange(depth, ins)
    ensures var t := Steps(depth, s, Duration(depth, s)); RunsWell(t.k, depth, t, c, ins)
  {
    hide Steps;
    hide Duration;
    hide TreeIs;
    hide Linked;
    hide Seen;
    hide EngineOf;
    hide RunsWell;
    hide Rtl.Inv;
    hide Rtl.Shaped;
    hide Quiet.Tracks;
    hide CiphersRest;
    hide InRange;
    hide Pow2;
    hide FirstOut;
    hide Zeros;
    hide Cleared;
    var t := Steps(depth, s, Duration(depth, s));
    InitBuildsTree(depth, s);
    InitLeavesSound(t.k, depth, t, c);
    SoundRunsWell(t.k, depth, t, c, ins);
  }

  // ------------------------------------------------------------- a zeroize in between

  /** The core left alone for some clocks. */
  function Alone(a: A.Core, n: nat): A.Core
    decreases n
  {
    if n == 0 then a else Alone(A.CoreNext(a, false, ZERO, ZERO), n - 1)
  }

  lemma {:induction false} AloneDelivers(a: A.Core, out: Block, m: nat, n: nat)
    requires A.Delivers(a, false, ZERO, ZERO, out, m) && n <= m
    ensures A.Delivers(Alone(a, n), false, ZERO, ZERO, out, m - n)
    decreases n
  {
    hide A.CoreNext;
    hide A.Delivers;
    if n > 0 {
      A.DeliversStep(a, false, ZERO, ZERO, out, m, false, ZERO, ZERO);
      AloneDelivers(A.CoreNext(a, false, ZERO, ZERO), out, m - 1, n - 1);
    }
  }

  /**
   * An access is accepted, then a zeroize clears every register but the core's, and
   * within ten clocks the engine is initialised again: its tree subkey is made of the
   * keystream block of the old access, and is right only if that is the encrypted zero
   * block of the new key.
   */
  lemma EarlyInitIsWrong(k: Keys, depth: nat, c: Chip, i: Rtl.In, n: nat, s: Boot)
    requires Rtl.Shaped(depth, Seen(c)) && !c.aes.busy && Rtl.Accepts(Seen(c), i) && n <= 10
    requires Shaped(depth, s) && s.phase == S_K1T && C.Sane(s.cm) && s.cm.fsm == C.S_IDLE
    requires s.aes == Alone(ChipNext(k, depth, c, i).aes, n)
    ensures CoreSane(s.aes)
    ensures var t, last := Steps(depth, s, Duration(depth, s)), Aes.Encrypt(k.enc, AesIn(k, Seen(c), i).x);
      t.k.k1Tree == C.Dbl(last) && (t.k.Derived() <==> last == Aes.Encrypt(s.k.tree, ZERO))
  {
    hide Steps;
    hide Alone;
    hide C.Sane;
    hide C.Dbl;
    hide Aes.Encrypt;
    hide Aes.BlockOf;
    hide A.Finish;
    hide Pow2;
    hide TreeIs;
    hide Duration;
    hide A.CoreNext;
    var ask := AesIn(k, Seen(c), i);
    var ks := Aes.Encrypt(k.enc, ask.x);
    A.DeliversStep(c.aes.(done := false), true, ask.key, ask.x, ks, 11, false, ZERO, ZERO);
    A.CoreIgnoresDone(c.aes, ask.key, ask.x);
    AloneDelivers(ChipNext(k, depth, c, i).aes, ks, 10, n);
    InitBuildsTree(depth, s);
    SubkeysExactly(depth, s);
  }
}
