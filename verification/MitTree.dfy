/**
 * The counter tree of the memory integrity engine: leaves, levels, the stored
 * layout, and the path that stands for the whole tree.
 */
module MitTree {
  import opened Words

  type U32 = x: nat | x < 0x1_0000_0000

  /** The keyed primitives: the tree's CMAC, the data CMAC, and the block cipher under the encryption key. */
  datatype Engine = Engine(tree: (Block, Block) -> Block, mac: (Block, Block) -> Block, enc: Block -> Block)

  const C_CTR0: Word := 0x4354_5230
  const C_LEAF: Word := 0x4C45_4146
  const C_DMAC: Word := 0x444D_4143
  const C_VTF3: Word := 0x5654_4633
  const C_CTRK: Word := 0x4354_524B

  /** A block number as the 32-bit word that is hashed. */
  function Bits(x: U32): Word { x as bv32 }

  function Leaf(i: U32, ctr: Word): Block { Block(ctr, Bits(i), C_CTR0, C_LEAF) }

  function Pow2(n: nat): (p: nat)
    ensures p >= 1
  {
    if n == 0 then 1 else 2 * Pow2(n - 1)
  }

  lemma {:induction false} Pow2Monotone(a: nat, b: nat)
    requires a <= b
    ensures Pow2(a) <= Pow2(b)
    decreases b
  {
    if a < b { Pow2Monotone(a, b - 1); }
  }

  /** A tree of `depth` levels over as many counters as fit. */
  ghost predicate Sized(depth: nat, ctrs: seq<Word>) {
    1 <= depth <= 32 && |ctrs| == Pow2(depth)
  }

  lemma SizedFits(depth: nat, ctrs: seq<Word>)
    requires Sized(depth, ctrs)
    ensures |ctrs| <= 0x1_0000_0000 && |ctrs| >= 2
  {
    Pow2Monotone(depth, 32);
    Pow2Is32();
    Pow2Monotone(1, depth);
  }

  lemma Pow2Is32()
    ensures Pow2(32) == 0x1_0000_0000
  {
    assert Pow2(8) == 256;
    assert Pow2(16) == 0x1_0000;
    assert Pow2(24) == 0x100_0000;
  }

  /** The pairwise hashes of one level are the next. */
  function Up(e: Engine, below: seq<Block>): (s: seq<Block>)
    ensures |s| == |below| / 2
    ensures forall j :: 0 <= j < |s| ==> s[j] == (e.tree)(below[2 * j], below[2 * j + 1])
  {
    seq(|below| / 2, j requires 0 <= j < |below| / 2 => (e.tree)(below[2 * j], below[2 * j + 1]))
  }

  /** Level 0 are the leaves, level `depth` is the root alone. */
  ghost function Level(e: Engine, depth: nat, ctrs: seq<Word>, l: nat): (s: seq<Block>)
    requires Sized(depth, ctrs) && l <= depth
    ensures |s| == Pow2(depth - l)
  {
    SizedFits(depth, ctrs);
    if l == 0 then seq(|ctrs|, i requires 0 <= i < |ctrs| => Leaf(i, ctrs[i]))
    else Up(e, Level(e, depth, ctrs, l - 1))
  }

  ghost function Root(e: Engine, depth: nat, ctrs: seq<Word>): Block
    requires Sized(depth, ctrs)
  {
    Level(e, depth, ctrs, depth)[0]
  }

  // ------------------------------------------------------------------------ paths

  function Sib(i: nat): nat { if i % 2 == 0 then i + 1 else i - 1 }

  /** Where the path of a block passes level `l`. */
  function Index(blk: nat, l: nat): nat { if l == 0 then blk else Index(blk, l - 1) / 2 }

  lemma {:induction false} IndexInLevel(depth: nat, blk: nat, l: nat)
    requires blk < Pow2(depth) && l <= depth
    ensures Index(blk, l) < Pow2(depth - l)
    ensures l < depth ==> Sib(Index(blk, l)) < Pow2(depth - l)
  {
    if l > 0 { IndexInLevel(depth, blk, l - 1); }
  }

  /** The two halves that are hashed together at index `i`, in order. */
  function Pair(i: nat, h: Block, sib: Block): (Block, Block) {
    if i % 2 == 1 then (sib, h) else (h, sib)
  }

  function Hash(e: Engine, m: (Block, Block)): Block { (e.tree)(m.0, m.1) }

  /** The node a path computes after `l` levels from a leaf and siblings. */
  function PathNode(e: Engine, blk: U32, ctr: Word, sibs: seq<Block>, l: nat): Block
    requires l <= |sibs|
    decreases l, 0
  {
    if l == 0 then Leaf(blk, ctr) else Hash(e, PathMsg(e, blk, ctr, sibs, l - 1))
  }

  /** What the path hashes at level `l`. */
  function PathMsg(e: Engine, blk: U32, ctr: Word, sibs: seq<Block>, l: nat): (Block, Block)
    requires l < |sibs|
    decreases l, 1
  {
    Pair(Index(blk, l), PathNode(e, blk, ctr, sibs, l), sibs[l])
  }

  /** The sibling the tree over `ctrs` has beside the path at level `l`. */
  ghost function HonestSib(e: Engine, depth: nat, ctrs: seq<Word>, blk: U32, l: nat): Block
    requires Sized(depth, ctrs) && blk < |ctrs| && l < depth
  {
    IndexInLevel(depth, blk, l);
    Level(e, depth, ctrs, l)[Sib(Index(blk, l))]
  }

  ghost function HonestNode(e: Engine, depth: nat, ctrs: seq<Word>, blk: U32, l: nat): Block
    requires Sized(depth, ctrs) && blk < |ctrs| && l <= depth
  {
    IndexInLevel(depth, blk, l);
    Level(e, depth, ctrs, l)[Index(blk, l)]
  }

  ghost function HonestMsg(e: Engine, depth: nat, ctrs: seq<Word>, blk: U32, l: nat): (Block, Block)
    requires Sized(depth, ctrs) && blk < |ctrs| && l < depth
  {
    Pair(Index(blk, l), HonestNode(e, depth, ctrs, blk, l), HonestSib(e, depth, ctrs, blk, l))
  }

  lemma HalfIndex(i: nat)
    ensures i % 2 == 1 ==> 2 * (i / 2) == Sib(i) && 2 * (i / 2) + 1 == i
    ensures i % 2 == 0 ==> 2 * (i / 2) == i && 2 * (i / 2) + 1 == Sib(i)
  {
  }

  lemma UpAt(e: Engine, below: seq<Block>, i: nat)
    requires |below| % 2 == 0 && i < |below|
    ensures Sib(i) < |below| && Up(e, below)[i / 2] == Hash(e, Pair(i, below[i], below[Sib(i)]))
  {
    HalfIndex(i);
  }

  lemma HonestStep(e: Engine, depth: nat, ctrs: seq<Word>, blk: U32, l: nat)
    requires Sized(depth, ctrs) && blk < |ctrs| && l < depth
    ensures HonestNode(e, depth, ctrs, blk, l + 1) == Hash(e, HonestMsg(e, depth, ctrs, blk, l))
  {
    hide Up;
    hide Hash;
    hide Leaf;
    hide Pair;
    hide Sib;
    IndexInLevel(depth, blk, l);
    IndexInLevel(depth, blk, l + 1);
    UpAt(e, Level(e, depth, ctrs, l), Index(blk, l));
  }

  /** Two different messages with the same tag: the path's own and the honest one of that level. */
  ghost predicate CollidesAt(e: Engine, depth: nat, ctrs: seq<Word>, blk: U32, ctr: Word, sibs: seq<Block>, l: nat)
    requires Sized(depth, ctrs) && blk < |ctrs| && |sibs| == depth && l < depth
  {
    var m, n := PathMsg(e, blk, ctr, sibs, l), HonestMsg(e, depth, ctrs, blk, l);
    m != n && Hash(e, m) == Hash(e, n)
  }

  /** The path's leaf and every sibling are the honest ones. */
  ghost predicate PathHonest(e: Engine, depth: nat, ctrs: seq<Word>, blk: U32, ctr: Word, sibs: seq<Block>, upTo: nat)
    requires Sized(depth, ctrs) && blk < |ctrs| && |sibs| == depth && upTo <= depth
  {
    ctr == ctrs[blk] && forall l :: 0 <= l < upTo ==> sibs[l] == HonestSib(e, depth, ctrs, blk, l)
  }

  lemma PairInjective(i: nat, a: Block, b: Block, c: Block, d: Block)
    requires Pair(i, a, b) == Pair(i, c, d)
    ensures a == c && b == d
  {
  }

  /**
   * A path that reaches the honest node of its level is honest all the way down,
   * or hashes, at a level below, another message to the same tag.
   */
  lemma {:induction false} PathDescends(e: Engine, depth: nat, ctrs: seq<Word>, blk: U32, ctr: Word, sibs: seq<Block>, l: nat)
    requires Sized(depth, ctrs) && blk < |ctrs| && |sibs| == depth && l <= depth
    requires PathNode(e, blk, ctr, sibs, l) == HonestNode(e, depth, ctrs, blk, l)
    ensures PathHonest(e, depth, ctrs, blk, ctr, sibs, l) || exists k :: 0 <= k < l && CollidesAt(e, depth, ctrs, blk, ctr, sibs, k)
  {
    hide Leaf;
    hide HonestNode;
    hide HonestSib;
    hide Hash;
    hide Pair;
    if l == 0 {
      LeafIsHonest(e, depth, ctrs, blk, ctr, sibs);
    } else {
      HonestStep(e, depth, ctrs, blk, l - 1);
      var m, n := PathMsg(e, blk, ctr, sibs, l - 1), HonestMsg(e, depth, ctrs, blk, l - 1);
      if m == n {
        PairInjective(Index(blk, l - 1), PathNode(e, blk, ctr, sibs, l - 1), sibs[l - 1],
                      HonestNode(e, depth, ctrs, blk, l - 1), HonestSib(e, depth, ctrs, blk, l - 1));
        PathDescends(e, depth, ctrs, blk, ctr, sibs, l - 1);
      } else {
        assert CollidesAt(e, depth, ctrs, blk, ctr, sibs, l - 1);
      }
    }
  }

  lemma LeafIsHonest(e: Engine, depth: nat, ctrs: seq<Word>, blk: U32, ctr: Word, sibs: seq<Block>)
    requires Sized(depth, ctrs) && blk < |ctrs|
    requires PathNode(e, blk, ctr, sibs, 0) == HonestNode(e, depth, ctrs, blk, 0)
    ensures ctr == ctrs[blk]
  {
    hide Bits;
  }

  /** The root check: a path that gives the root is honest, or two colliding messages are at hand. */
  lemma RootChecks(e: Engine, depth: nat, ctrs: seq<Word>, blk: U32, ctr: Word, sibs: seq<Block>)
    requires Sized(depth, ctrs) && blk < |ctrs| && |sibs| == depth
    requires PathNode(e, blk, ctr, sibs, depth) == Root(e, depth, ctrs)
    ensures PathHonest(e, depth, ctrs, blk, ctr, sibs, depth) ||
            exists k :: 0 <= k < depth && CollidesAt(e, depth, ctrs, blk, ctr, sibs, k)
  {
    IndexInLevel(depth, blk, depth);
    assert Index(blk, depth) == 0;
    PathDescends(e, depth, ctrs, blk, ctr, sibs, depth);
  }

  // -------------------------------------------------------------- updating a counter

  lemma UpdatedLeaves(e: Engine, depth: nat, ctrs: seq<Word>, blk: U32, ctr: Word)
    requires Sized(depth, ctrs) && blk < |ctrs|
    ensures Level(e, depth, ctrs[blk := ctr], 0) == Level(e, depth, ctrs, 0)[blk := Leaf(blk, ctr)]
  {
    hide Leaf;
  }

  /** The levels after one counter changes differ only on its path, where they are the path's nodes. */
  lemma {:induction false} UpdatedLevel(e: Engine, depth: nat, ctrs: seq<Word>, blk: U32, ctr: Word, sibs: seq<Block>, l: nat)
    requires Sized(depth, ctrs) && blk < |ctrs| && |sibs| == depth && l <= depth
    requires forall k :: 0 <= k < l ==> sibs[k] == HonestSib(e, depth, ctrs, blk, k)
    ensures Index(blk, l) < Pow2(depth - l)
    ensures Level(e, depth, ctrs[blk := ctr], l) == Level(e, depth, ctrs, l)[Index(blk, l) := PathNode(e, blk, ctr, sibs, l)]
  {
    hide Up;
    hide Hash;
    hide Pair;
    hide Sib;
    hide Leaf;
    IndexInLevel(depth, blk, l);
    if l == 0 {
      UpdatedLeaves(e, depth, ctrs, blk, ctr);
    } else {
      UpdatedLevel(e, depth, ctrs, blk, ctr, sibs, l - 1);
      IndexInLevel(depth, blk, l - 1);
      UpStep(e, Level(e, depth, ctrs, l - 1), Index(blk, l - 1), PathNode(e, blk, ctr, sibs, l - 1), sibs[l - 1]);
    }
  }

  lemma UpStep(e: Engine, below: seq<Block>, i: nat, h: Block, sib: Block)
    requires |below| % 2 == 0 && i < |below| && sib == below[Sib(i)]
    ensures Up(e, below[i := h]) == Up(e, below)[i / 2 := Hash(e, Pair(i, h, sib))]
  {
  }

  /** One path update gives the root of the tree rebuilt from the new counters. */
  lemma UpdatedRoot(e: Engine, depth: nat, ctrs: seq<Word>, blk: U32, ctr: Word, sibs: seq<Block>)
    requires Sized(depth, ctrs) && blk < |ctrs| && |sibs| == depth
    requires forall k :: 0 <= k < depth ==> sibs[k] == HonestSib(e, depth, ctrs, blk, k)
    ensures PathNode(e, blk, ctr, sibs, depth) == Root(e, depth, ctrs[blk := ctr])
  {
    UpdatedLevel(e, depth, ctrs, blk, ctr, sibs, depth);
  }

  // ------------------------------------------------------------------ stored layout

  /** Where level `l` starts among the stored nodes. */
  function Off(depth: nat, l: nat): nat
    requires 1 <= l <= depth
  {
    Pow2Monotone(depth - l + 1, depth);
    Pow2(depth) - Pow2(depth - (l - 1))
  }

  /** The stored levels follow each other without gaps and fill exactly all slots but the root's. */
  lemma LayoutTiles(depth: nat, l: nat)
    requires 1 <= l < depth
    ensures Off(depth, 1) == 0
    ensures Off(depth, l) + Pow2(depth - l) == Off(depth, l + 1)
    ensures Off(depth, depth) == Pow2(depth) - 2
  {
    assert Pow2(1) == 2;
  }

  lemma {:induction false} LayoutOrdered(depth: nat, k: nat, l: nat)
    requires 1 <= k < l <= depth
    ensures Off(depth, k) + Pow2(depth - k) <= Off(depth, l) <= Pow2(depth) - 2
    decreases l
  {
    LayoutTiles(depth, k);
    if l - 1 > k {
      LayoutOrdered(depth, k, l - 1);
      LayoutTiles(depth, l - 1);
    }
    Pow2Monotone(1, depth - (l - 1));
    assert Pow2(1) == 2;
  }

  /** No two nodes of different levels or places share a slot, and every slot is in range. */
  lemma SlotsDisjoint(depth: nat, k: nat, i: nat, l: nat, j: nat)
    requires 1 <= k < depth && 1 <= l < depth && i < Pow2(depth - k) && j < Pow2(depth - l)
    ensures Off(depth, k) + i < Pow2(depth) - 2
    ensures Off(depth, k) + i == Off(depth, l) + j <==> k == l && i == j
  {
    LayoutOrdered(depth, k, depth);
    if k < l { LayoutOrdered(depth, k, l); }
    if l < k { LayoutOrdered(depth, l, k); }
    LayoutTiles(depth, k);
    LayoutTiles(depth, l);
  }
}
