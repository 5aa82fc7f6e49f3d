/** The C++ engine: a trusted root over external arrays that anybody may overwrite. */
module MitEngine {
  import opened Words
  import opened MitTree
  import opened MitSpec

  class MemoryIntegrityTree {
    const e: Engine
    const depth: nat
    const extCt: array<Block>
    const extMac: array<Block>
    const extCtr: array<Word>
    const extNode: array<Block>
    var root: Block
    var tamper: bool

    ghost predicate Valid() reads this {
      && 1 <= depth <= 32
      && extCt.Length == extMac.Length == extCtr.Length == Pow2(depth) && extNode.Length + 2 == Pow2(depth)
      && extCt != extMac && extCt != extNode && extMac != extNode && (extCtr as object) != extCt
      && (extCtr as object) != extMac && (extCtr as object) != extNode
    }

    /** Working storage that is none of the external arrays. */
    ghost predicate Inside(a: array<Block>) reads this { a != extCt && a != extMac && a != extNode && (a as object) != extCtr }

    ghost function State(): (m: Mit)
      requires Valid()
      reads this, extCt, extMac, extCtr, extNode
      ensures MitSpec.Shaped(depth, m)
    {
      Mit(Store(extCt[..], extMac[..], extCtr[..], extNode[..]), root, tamper)
    }

    /** Fresh storage, zero counters, and the tree built over them. */
    constructor (e: Engine, blocks: nat, ghost d: nat)
      requires 1 <= d <= 32 && blocks == Pow2(d)
      ensures Valid() && this.e == e && depth == d && !tamper
      ensures fresh(extCt) && fresh(extMac) && fresh(extCtr) && fresh(extNode)
      ensures Quiet(e, d, State(), History(seq(blocks, _ => 0), seq(blocks, _ => ZERO), map[]))
    {
      Pow2Monotone(1, d);
      var k, size := 0, 1;
      while size < blocks
        invariant k <= d && size == Pow2(k)
        decreases d - k
      {
        if k == d { assert false; }
        Pow2Monotone(k + 1, d);
        k, size := k + 1, 2 * size;
      }
      if k < d { Pow2Monotone(k + 1, d); assert false; }
      this.e := e;
      depth := k;
      extCt := new Block[blocks](_ => ZERO);
      extMac := new Block[blocks](_ => ZERO);
      extCtr := new Word[blocks](_ => 0);
      extNode := new Block[blocks - 2](_ => ZERO);
      root := ZERO;
      tamper := false;
      new;
      ghost var zero := seq(blocks, _ => 0 as Word);
      assert extCtr[..] == zero;
      SizedFits(d, zero);
      Build();
      ghost var h := History(zero, seq(blocks, _ => ZERO), map[]);
      assert forall b: U32 :: b < blocks ==> RecordedAt(e, h, b) && DataIs(e, State(), h, b);
    }

    method Build()
      requires Valid()
      modifies extNode, this`root
      ensures root == Root(e, depth, extCtr[..])
      ensures NodesAre(e, depth, extCtr[..], extNode[..])
    {
      hide NodeIs;
      hide Off;
      hide Level;
      hide Up;
      hide Leaf;
      ghost var ctrs := extCtr[..];
      var prev := Leaves();
      var level := 1;
      while level <= depth
        invariant 1 <= level <= depth + 1 && fresh(prev) && extCtr[..] == ctrs
        invariant prev[..] == Level(e, depth, ctrs, level - 1)
        invariant NodesUpTo(e, depth, ctrs, extNode[..], level)
      {
        NextLevel(e, depth, ctrs, level);
        var cur := HashLevel(prev, level, ctrs, Level(e, depth, ctrs, level - 1), Level(e, depth, ctrs, level));
        prev, level := cur, level + 1;
      }
      root := prev[0];
    }

    method Leaves() returns (prev: array<Block>)
      requires Valid()
      ensures fresh(prev) && prev[..] == Level(e, depth, extCtr[..], 0)
    {
      hide Leaf;
      SizedFits(depth, extCtr[..]);
      prev := new Block[extCtr.Length];
      for i := 0 to extCtr.Length
        invariant forall j: U32 :: 0 <= j < i ==> prev[j] == Leaf(j, extCtr[j])
      {
        prev[i] := Leaf(i, extCtr[i]);
      }
      ghost var leaves := Level(e, depth, extCtr[..], 0);
      forall j: U32 | 0 <= j < prev.Length ensures prev[..][j] == leaves[j] {}
    }

    /** One level: hash the pairs, and store the nodes unless it is the root. */
    method HashLevel(prev: array<Block>, level: nat, ghost ctrs: seq<Word>, ghost below: seq<Block>, ghost above: seq<Block>)
      returns (cur: array<Block>)
      requires Valid() && extCtr[..] == ctrs && 1 <= level <= depth && prev != extNode
      requires prev[..] == below && |below| == Pow2(depth - (level - 1))
      requires above == Level(e, depth, ctrs, level) && above == Up(e, below)
      requires NodesUpTo(e, depth, ctrs, extNode[..], level)
      modifies extNode
      ensures fresh(cur) && cur[..] == above
      ensures NodesUpTo(e, depth, ctrs, extNode[..], level + 1)
    {
      hide NodeIs;
      hide NodesUpTo;
      hide Level;
      hide Up;
      cur := new Block[prev.Length / 2];
      var j := 0;
      LevelStarts(e, depth, ctrs, extNode[..], level);
      while j < cur.Length
        invariant j <= cur.Length && cur.Length == |above|
        invariant forall i :: 0 <= i < j ==> cur[i] == above[i]
        invariant prev[..] == below
        invariant NodesUpTo(e, depth, ctrs, extNode[..], level) && StoredTo(e, depth, ctrs, extNode[..], level, j)
      {
        assert below[2 * j] == prev[2 * j] && below[2 * j + 1] == prev[2 * j + 1];
        cur[j] := (e.tree)(prev[2 * j], prev[2 * j + 1]);
        if level < depth { StoreNode(level, j, cur[j], ctrs); } else { RootNotStored(e, depth, ctrs, extNode[..], j); }
        j := j + 1;
      }
      assert cur[..] == above;
      LevelStored(e, depth, ctrs, extNode[..], level);
    }

    method StoreNode(level: nat, j: nat, v: Block, ghost ctrs: seq<Word>)
      requires Valid() && extCtr[..] == ctrs && 1 <= level < depth && j < Pow2(depth - level)
      requires v == Level(e, depth, ctrs, level)[j]
      requires NodesUpTo(e, depth, ctrs, extNode[..], level) && StoredTo(e, depth, ctrs, extNode[..], level, j)
      modifies extNode
      ensures NodesUpTo(e, depth, ctrs, extNode[..], level) && StoredTo(e, depth, ctrs, extNode[..], level, j + 1)
    {
      hide NodesUpTo;
      hide StoredTo;
      hide Level;
      SlotsDisjoint(depth, level, j, level, j);
      ghost var was := extNode[..];
      extNode[Off(depth, level) + j] := v;
      StoredNode(e, depth, ctrs, was, extNode[..], level, j);
    }

    /**
     * Recomputes the root along a block's path. Siblings come from the cache when
     * `cached` is set, and otherwise from storage, filling the cache.
     */
    method Path(blk: U32, ctr: Word, cached: bool, sibs: array<Block>, nodes: array<Block>) returns (r: Block)
      requires Valid() && blk < extCtr.Length && sibs.Length == nodes.Length == 32 && sibs != nodes
      requires Inside(sibs) && Inside(nodes)
      modifies sibs, nodes
      ensures cached ==> sibs[..depth] == old(sibs[..depth])
      ensures !cached ==> sibs[..depth] == StoredSibs(depth, State().store, blk)
      ensures r == PathNode(e, blk, ctr, sibs[..depth], depth)
      ensures forall l :: 1 <= l <= depth ==> nodes[l - 1] == PathNode(e, blk, ctr, sibs[..depth], l)
    {
      hide Leaf;
      hide StoredSib;
      hide Off;
      hide Pow2;
      hide Pair;
      hide Hash;
      hide NodesUpTo;
      SizedFits(depth, extCtr[..]);
      ghost var st := State();
      ghost var want := if cached then sibs[..depth] else StoredSibs(depth, State().store, blk);
      hide StoredSibs;
      var h, idx := Leaf(blk, ctr), blk as nat;
      var level := 0;
      while level < depth
        invariant level <= depth && idx == Index(blk, level) && |want| == depth && State() == st
        invariant h == PathNode(e, blk, ctr, want, level)
        invariant cached ==> sibs[..depth] == want
        invariant !cached ==> forall l :: 0 <= l < level ==> sibs[l] == want[l]
        invariant forall l :: 1 <= l <= level ==> nodes[l - 1] == PathNode(e, blk, ctr, want, l)
      {
        if !cached {
          var sib := Sibling(blk, idx, level);
          sibs[level] := sib;
        }
        assert sibs[level] == want[level];
        h := Hash(e, Pair(idx, h, sibs[level]));
        nodes[level] := h;
        PathStep(e, blk, ctr, want, level);
        level, idx := level + 1, idx / 2;
      }
      assert sibs[..depth] == want;
      r := h;
    }

    method Sibling(blk: U32, idx: nat, level: nat) returns (s: Block)
      requires Valid() && blk < extCtr.Length && level < depth && idx == Index(blk, level)
      ensures s == StoredSib(depth, State().store, blk, level)
    {
      hide Leaf;
      SizedFits(depth, extCtr[..]);
      IndexInLevel(depth, blk, level);
      if level == 0 {
        s := Leaf(Sib(idx), extCtr[Sib(idx)]);
      } else {
        SlotsDisjoint(depth, level, Sib(idx), level, Sib(idx));
        s := extNode[Off(depth, level) + Sib(idx)];
      }
    }

    method Read(blk: U32) returns (status: Status, out: Block)
      requires Valid() && blk < extCtr.Length
      modifies this`tamper
      ensures var r := MitSpec.Read(e, depth, old(State()), blk); status == r.status && out == r.out
      ensures State() == After(e, depth, old(State()), ReadOp(blk))
    {
      hide StoredSibs;
      hide PathNode;
      hide DataMac;
      hide KeyStream;
      hide Xor;
      out := ZERO;
      var ct, mac, ctr := extCt[blk], extMac[blk], extCtr[blk];
      var sibs, nodes := new Block[32](_ => ZERO), new Block[32](_ => ZERO);
      var r := Path(blk, ctr, false, sibs, nodes);
      if r != root {
        tamper := true;
        return Tamper, out;
      }
      if ctr == 0 { return Ok, out; }
      var m := DataMac(e, blk, ctr, ct);
      if m != mac {
        tamper := true;
        return Tamper, out;
      }
      return Ok, Xor(ct, KeyStream(e, blk, ctr));
    }

    method Write(blk: U32, pt: Block) returns (status: Status)
      requires Valid() && blk < extCtr.Length
      modifies this`tamper, this`root, extCt, extMac, extCtr, extNode
      ensures status == WriteStatus(e, depth, old(State()), blk)
      ensures State() == After(e, depth, old(State()), WriteOp(blk, pt))
    {
      hide StoredSibs;
      hide PathNode;
      hide DataMac;
      hide KeyStream;
      hide Xor;
      hide PutNodes;
      hide Bump;
      ghost var m := State();
      var was := extCtr[blk];
      var sibs, nodes := new Block[32](_ => ZERO), new Block[32](_ => ZERO);
      var r := Path(blk, was, false, sibs, nodes);
      if r != root {
        tamper := true;
        return Tamper;
      }
      if was == 0xFFFF_FFFF { return Exhausted; }
      var ctr := Bump(was);
      var ct := Xor(pt, KeyStream(e, blk, ctr));
      var mac := DataMac(e, blk, ctr, ct);
      var newRoot := Path(blk, ctr, true, sibs, nodes);
      PutPath(blk, ctr, sibs[..depth], nodes);
      extCt[blk] := ct;
      extMac[blk] := mac;
      extCtr[blk] := ctr;
      root := newRoot;
      assert State() == Written(e, depth, m, blk, pt);
      return Ok;
    }

    /** Stores the recomputed nodes of the path, all but the root. */
    method PutPath(blk: U32, ctr: Word, ghost sibs: seq<Block>, nodes: array<Block>)
      requires Valid() && blk < extCtr.Length && nodes.Length == 32 && Inside(nodes) && |sibs| == depth
      requires forall l :: 1 <= l <= depth ==> nodes[l - 1] == PathNode(e, blk, ctr, sibs, l)
      modifies extNode
      ensures extNode[..] == PutNodes(e, depth, old(extNode[..]), blk, ctr, sibs, depth - 1)
    {
      hide PathNode;
      hide Off;
      var idx, level := blk as nat, 1;
      while level < depth
        invariant 1 <= level <= depth && idx == Index(blk, level - 1)
        invariant forall l :: 1 <= l <= depth ==> nodes[l - 1] == PathNode(e, blk, ctr, sibs, l)
        invariant extNode[..] == PutNodes(e, depth, old(extNode[..]), blk, ctr, sibs, level - 1)
      {
        idx := idx / 2;
        IndexInLevel(depth, blk, level);
        SlotsDisjoint(depth, level, idx, level, idx);
        extNode[Off(depth, level) + idx] := nodes[level - 1];
        level := level + 1;
      }
    }
  }

  lemma PathStep(e: Engine, blk: U32, ctr: Word, sibs: seq<Block>, l: nat)
    requires l < |sibs|
    ensures PathNode(e, blk, ctr, sibs, l + 1) == Hash(e, Pair(Index(blk, l), PathNode(e, blk, ctr, sibs, l), sibs[l]))
  {
    hide Hash;
    hide Pair;
    hide Leaf;
  }

  /** Levels below `n` are stored. */
  ghost predicate NodesUpTo(e: Engine, depth: nat, ctrs: seq<Word>, node: seq<Block>, n: nat)
    requires Sized(depth, ctrs) && |node| + 2 == Pow2(depth)
  {
    forall l, j :: 1 <= l < n && l < depth && 0 <= j < Pow2(depth - l) ==> NodeIs(e, depth, ctrs, node, l, j)
  }

  /** Of level `level`, unless it is the root, the first `n` nodes are stored. */
  ghost predicate StoredTo(e: Engine, depth: nat, ctrs: seq<Word>, node: seq<Block>, level: nat, n: nat)
    requires Sized(depth, ctrs) && |node| + 2 == Pow2(depth) && 1 <= level <= depth && n <= Pow2(depth - level)
  {
    level < depth ==> forall i :: 0 <= i < n ==> NodeIs(e, depth, ctrs, node, level, i)
  }

  lemma NextLevel(e: Engine, depth: nat, ctrs: seq<Word>, level: nat)
    requires Sized(depth, ctrs) && 1 <= level <= depth
    ensures Level(e, depth, ctrs, level) == Up(e, Level(e, depth, ctrs, level - 1))
  {
  }

  lemma LevelStarts(e: Engine, depth: nat, ctrs: seq<Word>, node: seq<Block>, level: nat)
    requires Sized(depth, ctrs) && |node| + 2 == Pow2(depth) && 1 <= level <= depth
    ensures StoredTo(e, depth, ctrs, node, level, 0)
  {
  }

  lemma RootNotStored(e: Engine, depth: nat, ctrs: seq<Word>, node: seq<Block>, j: nat)
    requires Sized(depth, ctrs) && |node| + 2 == Pow2(depth) && j < Pow2(0)
    ensures StoredTo(e, depth, ctrs, node, depth, j + 1)
  {
  }

  lemma LevelStored(e: Engine, depth: nat, ctrs: seq<Word>, node: seq<Block>, level: nat)
    requires Sized(depth, ctrs) && |node| + 2 == Pow2(depth) && 1 <= level <= depth
    requires NodesUpTo(e, depth, ctrs, node, level) && StoredTo(e, depth, ctrs, node, level, Pow2(depth - level))
    ensures NodesUpTo(e, depth, ctrs, node, level + 1)
  {
    hide NodeIs;
  }

  /** Storing one node of a level leaves those before it in place. */
  lemma StoredNode(e: Engine, depth: nat, ctrs: seq<Word>, was: seq<Block>, now: seq<Block>, level: nat, j: nat)
    requires Sized(depth, ctrs) && |was| + 2 == Pow2(depth) && 1 <= level < depth && j < Pow2(depth - level)
    requires Off(depth, level) + j < |was|
    requires now == was[Off(depth, level) + j := Level(e, depth, ctrs, level)[j]]
    requires NodesUpTo(e, depth, ctrs, was, level)
    requires StoredTo(e, depth, ctrs, was, level, j)
    ensures NodesUpTo(e, depth, ctrs, now, level) && StoredTo(e, depth, ctrs, now, level, j + 1)
  {
    hide Off;
    hide Level;
    forall l, i {:trigger NodeIs(e, depth, ctrs, now, l, i)} | 1 <= l < level && 0 <= i < Pow2(depth - l)
      ensures NodeIs(e, depth, ctrs, now, l, i)
    {
      assert NodeIs(e, depth, ctrs, was, l, i);
      SlotsDisjoint(depth, l, i, level, j);
    }
    forall i | 0 <= i <= j ensures NodeIs(e, depth, ctrs, now, level, i) {
      if i < j { assert NodeIs(e, depth, ctrs, was, level, i); }
      SlotsDisjoint(depth, level, i, level, j);
    }
  }
}
