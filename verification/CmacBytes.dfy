/**
 * AES-CMAC over byte strings of any length, as the software computes it in byte
 * buffers, against the algorithm of NIST SP 800-38B on 128-bit blocks.
 */
module CmacBytes {
  import opened Words
  import opened Aes
  import AesOps
  import opened CmacRtl

  // -------------------------------------------------------------- the standard's algorithm

  /** Sixteen bytes as a block, first byte most significant. */
  function Load(s: seq<bv8>): Block
    requires |s| == 16
  {
    Block(Compose(s[0], s[1], s[2], s[3]), Compose(s[4], s[5], s[6], s[7]),
          Compose(s[8], s[9], s[10], s[11]), Compose(s[12], s[13], s[14], s[15]))
  }

  /** How many blocks a message takes, counting an incomplete one; the empty message takes one. */
  function BlockCount(len: nat): nat { if len == 0 then 1 else (len + 15) / 16 }

  /** The last block is full. */
  predicate Complete(len: nat) { len > 0 && len % 16 == 0 }

  /** The tail of a message behind its full blocks, padded with a one bit and zeros. */
  function Padded(tail: seq<bv8>): seq<bv8>
    requires |tail| < 16
  {
    tail + [0x80] + seq(15 - |tail|, _ => 0)
  }

  /** The subkey for full last blocks. */
  function FirstSubkey(c: Cipher, key: Block): Block { Dbl((c.enc)(key, ZERO)) }

  /** The last block, masked with the first subkey if it is full and with the second if it is padded. */
  function LastBlock(c: Cipher, key: Block, msg: seq<bv8>): Block {
    LastBlockIn(|msg|);
    var off := 16 * (BlockCount(|msg|) - 1);
    if Complete(|msg|) then Xor(Load(msg[off..]), FirstSubkey(c, key))
    else Xor(Load(Padded(msg[off..])), Dbl(FirstSubkey(c, key)))
  }

  /** The chaining value after `n` full blocks. */
  function Chain(c: Cipher, key: Block, msg: seq<bv8>, n: nat): Block
    requires 16 * n <= |msg|
  {
    if n == 0 then ZERO
    else (c.enc)(key, Xor(Chain(c, key, msg, n - 1), Load(msg[16 * (n - 1)..16 * n])))
  }

  function Cmac(c: Cipher, key: Block, msg: seq<bv8>): Block {
    LastBlockIn(|msg|);
    (c.enc)(key, Xor(Chain(c, key, msg, BlockCount(|msg|) - 1), LastBlock(c, key, msg)))
  }

  lemma LastBlockIn(len: nat)
    ensures var off := 16 * (BlockCount(len) - 1);
      0 <= off <= len && if Complete(len) then len == off + 16 else len - off < 16
  {
  }

  lemma OfTwoBlocks(c: Cipher, key: Block, a: seq<bv8>, b: seq<bv8>)
    requires |a| == |b| == 16
    ensures Cmac(c, key, a + b) ==
      (c.enc)(key, Xor(Xor((c.enc)(key, Load(a)), Load(b)), FirstSubkey(c, key)))
  {
    hide Dbl;
    hide Load;
    hide Xor;
    var msg := a + b;
    assert msg[16 * 0..16 * 1] == a && msg[16..] == b;
    assert Chain(c, key, msg, 0) == ZERO;
    assert Chain(c, key, msg, 1) == (c.enc)(key, Xor(ZERO, Load(a)));
    assert LastBlock(c, key, msg) == Xor(Load(b), FirstSubkey(c, key));
    ZeroXor(Load(a));
    XorAssociates((c.enc)(key, Load(a)), Load(b), FirstSubkey(c, key));
  }

  /** On two full blocks it is what the hardware unit computes. */
  lemma HardwareIsSoftware(key: Block, a: seq<bv8>, b: seq<bv8>)
    requires |a| == |b| == 16
    ensures Cmac(Aes128(), key, a + b) == Cmac32(key, Load(a), Load(b))
  {
    hide Encrypt;
    hide Dbl;
    hide Load;
    hide Xor;
    hide Cmac;
    OfTwoBlocks(Aes128(), key, a, b);
  }

  lemma ZeroXor(x: Block)
    ensures Xor(ZERO, x) == x
  {
  }

  lemma XorAssociates(a: Block, b: Block, c: Block)
    ensures Xor(Xor(a, b), c) == Xor(a, Xor(b, c))
  {
    hide WordXor;
    WordAssociates(a.w0, b.w0, c.w0);
    WordAssociates(a.w1, b.w1, c.w1);
    WordAssociates(a.w2, b.w2, c.w2);
    WordAssociates(a.w3, b.w3, c.w3);
  }

  // ---------------------------------------------------------------------- bytes and words

  function WordBytes(c: Column): seq<bv8> { [c.b0, c.b1, c.b2, c.b3] }

  function Joined(c0: Column, c1: Column, c2: Column, c3: Column): seq<bv8> {
    WordBytes(c0) + WordBytes(c1) + WordBytes(c2) + WordBytes(c3)
  }

  function Bytes(x: Block): seq<bv8> {
    Joined(ColumnOf(x.w0), ColumnOf(x.w1), ColumnOf(x.w2), ColumnOf(x.w3))
  }

  lemma LoadBytes(x: Block)
    ensures Load(Bytes(x)) == x
  {
    hide ColumnOf;
    hide Compose;
    WordRoundTrip(x.w0);
    WordRoundTrip(x.w1);
    WordRoundTrip(x.w2);
    WordRoundTrip(x.w3);
  }

  function XorByte(a: bv8, b: bv8): bv8 { a ^ b }

  function XorBytes(a: seq<bv8>, b: seq<bv8>): seq<bv8>
    requires |a| == |b| == 16
  {
    seq(16, i requires 0 <= i < 16 => XorByte(a[i], b[i]))
  }

  lemma ComposeXor(a3: bv8, a2: bv8, a1: bv8, a0: bv8, b3: bv8, b2: bv8, b1: bv8, b0: bv8)
    ensures Compose(XorByte(a3, b3), XorByte(a2, b2), XorByte(a1, b1), XorByte(a0, b0)) ==
      WordXor(Compose(a3, a2, a1, a0), Compose(b3, b2, b1, b0))
  {
  }

  lemma LoadXor(a: seq<bv8>, b: seq<bv8>)
    requires |a| == |b| == 16
    ensures Load(XorBytes(a, b)) == Xor(Load(a), Load(b))
  {
    hide Compose;
    hide XorByte;
    hide WordXor;
    ComposeXor(a[0], a[1], a[2], a[3], b[0], b[1], b[2], b[3]);
    ComposeXor(a[4], a[5], a[6], a[7], b[4], b[5], b[6], b[7]);
    ComposeXor(a[8], a[9], a[10], a[11], b[8], b[9], b[10], b[11]);
    ComposeXor(a[12], a[13], a[14], a[15], b[12], b[13], b[14], b[15]);
  }

  /** The carry a byte gives to the byte before it when it is shifted. */
  function Carry(b: bv8): bv8 { b >> 7 }

  function ShiftByte(b: bv8, carry: bv8): bv8 { (b << 1) | carry }

  /** Sixteen bytes shifted left by one bit. */
  function ShiftBytes(s: seq<bv8>): seq<bv8>
    requires |s| == 16
  {
    seq(16, i requires 0 <= i < 16 => ShiftByte(s[i], if i < 15 then Carry(s[i + 1]) else 0))
  }

  /** Doubling, on bytes. */
  function DoubleBytes(s: seq<bv8>): seq<bv8>
    requires |s| == 16
  {
    var t := ShiftBytes(s);
    if Top(s[0]) then t[15 := XorByte(t[15], 0x87)] else t
  }

  function ShiftColumn(c: Column, carry: bv8): Column {
    Column(ShiftByte(c.b0, Carry(c.b1)), ShiftByte(c.b1, Carry(c.b2)), ShiftByte(c.b2, Carry(c.b3)), ShiftByte(c.b3, carry))
  }

  lemma ShiftedByte3(w: Word, v: Word)
    ensures Byte(ShiftWord(w, v), 24) == ShiftByte(Byte(w, 24), Carry(Byte(w, 16)))
  {
  }

  lemma ShiftedByte2(w: Word, v: Word)
    ensures Byte(ShiftWord(w, v), 16) == ShiftByte(Byte(w, 16), Carry(Byte(w, 8)))
  {
  }

  lemma ShiftedByte1(w: Word, v: Word)
    ensures Byte(ShiftWord(w, v), 8) == ShiftByte(Byte(w, 8), Carry(Byte(w, 0)))
  {
  }

  lemma ShiftedByte0(w: Word, v: Word)
    ensures Byte(ShiftWord(w, v), 0) == ShiftByte(Byte(w, 0), Carry(Byte(v, 24)))
  {
  }

  lemma ShiftedColumn(w: Word, v: Word)
    ensures ColumnOf(ShiftWord(w, v)) == ShiftColumn(ColumnOf(w), Carry(ColumnOf(v).b0))
  {
    hide Byte;
    hide ShiftWord;
    hide ShiftByte;
    hide Carry;
    ShiftedByte3(w, v);
    ShiftedByte2(w, v);
    ShiftedByte1(w, v);
    ShiftedByte0(w, v);
  }

  lemma ReducedColumn(w: Word, v: Word)
    ensures var c := ShiftColumn(ColumnOf(w), 0);
      ColumnOf(ReduceWord(w, v)) == if Top(ColumnOf(v).b0) then c.(b3 := XorByte(c.b3, 0x87)) else c
  {
    ShiftedColumn(w, 0);
    assert TopBit(v) <==> Top(Byte(v, 24));
    assert Carry(ColumnOf(0).b0) == 0;
    ReducedByte(ShiftWord(w, 0));
    assert ReduceWord(w, v) == if TopBit(v) then WordXor(ShiftWord(w, 0), 0x87) else ShiftWord(w, 0);
    hide *;
  }

  lemma ReducedByte(w: Word)
    ensures var c := ColumnOf(w); ColumnOf(WordXor(w, 0x87)) == c.(b3 := XorByte(c.b3, 0x87))
  {
  }

  lemma BytesLoad(s: seq<bv8>)
    requires |s| == 16
    ensures Bytes(Load(s)) == s
  {
    hide Compose;
    hide ColumnOf;
    ColumnRoundTrip(Column(s[0], s[1], s[2], s[3]));
    ColumnRoundTrip(Column(s[4], s[5], s[6], s[7]));
    ColumnRoundTrip(Column(s[8], s[9], s[10], s[11]));
    ColumnRoundTrip(Column(s[12], s[13], s[14], s[15]));
  }

  lemma JoinedIs(c0: Column, c1: Column, c2: Column, c3: Column)
    ensures Joined(c0, c1, c2, c3) ==
      [c0.b0, c0.b1, c0.b2, c0.b3, c1.b0, c1.b1, c1.b2, c1.b3, c2.b0, c2.b1, c2.b2, c2.b3, c3.b0, c3.b1, c3.b2, c3.b3]
  {
  }

  lemma ShiftBytesAt(s: seq<bv8>, i: nat)
    requires |s| == 16 && i < 16
    ensures |ShiftBytes(s)| == 16 && ShiftBytes(s)[i] == ShiftByte(s[i], if i < 15 then Carry(s[i + 1]) else 0)
  {
  }

  lemma ShiftedFour(s: seq<bv8>, k: nat, c: Column, carry: bv8)
    requires |s| == 16 && k <= 12 && WordBytes(c) == s[k..k + 4] && carry == if k < 12 then Carry(s[k + 4]) else 0
    ensures |ShiftBytes(s)| == 16 && ShiftBytes(s)[k..k + 4] == WordBytes(ShiftColumn(c, carry))
  {
    hide ShiftBytes;
    hide ShiftByte;
    hide Carry;
    assert WordBytes(c)[0] == s[k] && WordBytes(c)[1] == s[k + 1] && WordBytes(c)[2] == s[k + 2] && WordBytes(c)[3] == s[k + 3];
    ShiftBytesAt(s, k);
    ShiftBytesAt(s, k + 1);
    ShiftBytesAt(s, k + 2);
    ShiftBytesAt(s, k + 3);
  }

  lemma InFours(s: seq<bv8>)
    requires |s| == 16
    ensures s == s[0..4] + s[4..8] + s[8..12] + s[12..16]
  {
  }

  lemma JoinedFours(c0: Column, c1: Column, c2: Column, c3: Column)
    ensures var s := Joined(c0, c1, c2, c3);
      && |s| == 16
      && s[0..4] == WordBytes(c0) && s[4..8] == WordBytes(c1) && s[8..12] == WordBytes(c2) && s[12..16] == WordBytes(c3)
      && s[4] == c1.b0 && s[8] == c2.b0 && s[12] == c3.b0
  {
  }

  lemma ShiftedColumns(c0: Column, c1: Column, c2: Column, c3: Column)
    ensures ShiftBytes(Joined(c0, c1, c2, c3)) ==
      Joined(ShiftColumn(c0, Carry(c1.b0)), ShiftColumn(c1, Carry(c2.b0)), ShiftColumn(c2, Carry(c3.b0)), ShiftColumn(c3, 0))
  {
    hide ShiftBytes;
    hide ShiftColumn;
    hide Carry;
    hide WordBytes;
    JoinedFours(c0, c1, c2, c3);
    var s := Joined(c0, c1, c2, c3);
    ShiftedFour(s, 0, c0, Carry(c1.b0));
    ShiftedFour(s, 4, c1, Carry(c2.b0));
    ShiftedFour(s, 8, c2, Carry(c3.b0));
    ShiftedFour(s, 12, c3, 0);
    InFours(ShiftBytes(s));
  }

  lemma LastReplaced(c0: Column, c1: Column, c2: Column, c3: Column, b: bv8)
    ensures Joined(c0, c1, c2, c3)[15 := b] == Joined(c0, c1, c2, c3.(b3 := b)) && Joined(c0, c1, c2, c3)[15] == c3.b3
  {
    hide Joined;
    JoinedIs(c0, c1, c2, c3);
    JoinedIs(c0, c1, c2, c3.(b3 := b));
  }

  lemma DoubledColumns(c0: Column, c1: Column, c2: Column, c3: Column)
    ensures var d3 := ShiftColumn(c3, 0);
      DoubleBytes(Joined(c0, c1, c2, c3)) ==
      Joined(ShiftColumn(c0, Carry(c1.b0)), ShiftColumn(c1, Carry(c2.b0)), ShiftColumn(c2, Carry(c3.b0)),
             if Top(c0.b0) then d3.(b3 := XorByte(d3.b3, 0x87)) else d3)
  {
    hide XorByte;
    hide ShiftBytes;
    hide ShiftColumn;
    hide Carry;
    hide Top;
    hide Joined;
    JoinedIs(c0, c1, c2, c3);
    ShiftedColumns(c0, c1, c2, c3);
    var d3 := ShiftColumn(c3, 0);
    LastReplaced(ShiftColumn(c0, Carry(c1.b0)), ShiftColumn(c1, Carry(c2.b0)), ShiftColumn(c2, Carry(c3.b0)), d3,
                 XorByte(d3.b3, 0x87));
  }

  /** Doubling byte by byte with a carry is doubling of the block. */
  lemma LoadDouble(s: seq<bv8>)
    requires |s| == 16
    ensures Load(DoubleBytes(s)) == Dbl(Load(s))
  {
    hide Load;
    hide DoubleBytes;
    hide ShiftColumn;
    hide ColumnOf;
    hide ShiftWord;
    hide ReduceWord;
    hide Carry;
    hide Top;
    hide WordBytes;
    var x := Load(s);
    BytesLoad(s);
    DoubledColumns(ColumnOf(x.w0), ColumnOf(x.w1), ColumnOf(x.w2), ColumnOf(x.w3));
    ShiftedColumn(x.w0, x.w1);
    ShiftedColumn(x.w1, x.w2);
    ShiftedColumn(x.w2, x.w3);
    ReducedColumn(x.w3, x.w0);
    assert Bytes(Dbl(x)) == DoubleBytes(s);
    LoadBytes(Dbl(x));
  }

  // ------------------------------------------------------------------------- the buffers

  ghost predicate Buffer(a: array<bv8>) { a.Length == 16 }

  lemma NextBytes(x: Block, i: nat)
    requires i < 4
    ensures |Bytes(x)| == 16 && Bytes(x)[..4 * i] + WordBytes(ColumnOf(x.At(i))) == Bytes(x)[..4 * i + 4]
  {
    hide ColumnOf;
  }

  method WordsToBytes(x: Block, out: array<bv8>)
    requires Buffer(out)
    modifies out
    ensures out[..] == Bytes(x)
  {
    hide ColumnOf;
    hide Bytes;
    hide Block.At;
    NextBytes(x, 0);
    for i := 0 to 4
      invariant out[..4 * i] == Bytes(x)[..4 * i]
    {
      var c := ColumnOf(x.At(i));
      out[4 * i], out[4 * i + 1], out[4 * i + 2], out[4 * i + 3] := c.b0, c.b1, c.b2, c.b3;
      NextBytes(x, i);
      assert out[..4 * i + 4] == out[..4 * i] + WordBytes(c);
    }
    assert out[..] == out[..4 * 4];
  }

  method Xor16(a: array<bv8>, b: array<bv8>, out: array<bv8>)
    requires Buffer(a) && Buffer(b) && Buffer(out) && out != a && out != b
    modifies out
    ensures out[..] == XorBytes(a[..], b[..])
  {
    for i := 0 to 16
      invariant a[..] == old(a[..]) && b[..] == old(b[..])
      invariant forall k :: 0 <= k < i ==> out[k] == XorByte(a[k], b[k])
    {
      out[i] := a[i] ^ b[i];
    }
  }

  method LeftShift128(a: array<bv8>, out: array<bv8>)
    requires Buffer(a) && Buffer(out) && out != a
    modifies out
    ensures out[..] == ShiftBytes(a[..])
  {
    var carry: bv8 := 0;
    var i := 16;
    while i > 0
      invariant 0 <= i <= 16 && a[..] == old(a[..])
      invariant carry == (if i < 16 then Carry(a[i]) else 0)
      invariant forall k :: i <= k < 16 ==> out[k] == ShiftByte(a[k], if k < 15 then Carry(a[k + 1]) else 0)
    {
      i := i - 1;
      var next := (a[i] >> 7) & 1;
      out[i] := (a[i] << 1) | carry;
      assert out[i] == ShiftByte(a[i], if i < 15 then Carry(a[i + 1]) else 0);
      CarryBit(a[i]);
      carry := next;
    }
    forall k | 0 <= k < 16 ensures out[..][k] == ShiftBytes(a[..])[k] {
      ShiftBytesAt(a[..], k);
      assert out[..][k] == out[k] && a[..][k] == a[k];
      if k < 15 { assert a[..][k + 1] == a[k + 1]; }
    }
  }

  lemma CarryBit(b: bv8)
    ensures (b >> 7) & 1 == Carry(b)
  {
  }

  method AesBlock(a: array<bv8>, key: Block, out: array<bv8>)
    requires Buffer(a) && Buffer(out)
    modifies out
    ensures Load(out[..]) == (Aes128().enc)(key, Load(old(a[..])))
  {
    hide Encrypt;
    hide Load;
    hide Bytes;
    var y := AesOps.EncryptBlock(Load(a[..]), key);
    WordsToBytes(y, out);
    LoadBytes(y);
  }

  method DoubleInto(a: array<bv8>, out: array<bv8>)
    requires Buffer(a) && Buffer(out) && a != out
    modifies out
    ensures Load(out[..]) == Dbl(Load(a[..]))
  {
    hide Load;
    hide Dbl;
    hide ShiftBytes;
    LeftShift128(a, out);
    if a[0] & 0x80 != 0 {
      out[15] := out[15] ^ 0x87;
    }
    assert out[..] == DoubleBytes(a[..]);
    LoadDouble(a[..]);
  }

  /** The masked last block: the last full block under K1, or the padded tail under K2. */
  function LastBytes(msg: seq<bv8>, off: nat, k1: seq<bv8>, k2: seq<bv8>): (r: seq<bv8>)
    requires |k1| == |k2| == 16
    requires off <= |msg| && if Complete(|msg|) then |msg| == off + 16 else |msg| - off < 16
    ensures |r| == 16
  {
    if Complete(|msg|) then XorBytes(msg[off..], k1) else XorBytes(Padded(msg[off..]), k2)
  }

  method FillLast(msg: seq<bv8>, off: nat, k1: array<bv8>, k2: array<bv8>, last: array<bv8>)
    requires Buffer(k1) && Buffer(k2) && Buffer(last) && last != k1 && last != k2
    requires off <= |msg| && if Complete(|msg|) then |msg| == off + 16 else |msg| - off < 16
    modifies last
    ensures last[..] == LastBytes(msg, off, k1[..], k2[..])
  {
    if Complete(|msg|) {
      for i := 0 to 16
        invariant k1[..] == old(k1[..])
        invariant forall k :: 0 <= k < i ==> last[k] == XorByte(msg[off + k], k1[k])
      {
        last[i] := msg[off + i] ^ k1[i];
      }
    } else {
      var rem := |msg| - off;
      for i := 0 to 16
        invariant forall k :: 0 <= k < i ==> last[k] == 0
      {
        last[i] := 0;
      }
      for i := 0 to rem
        invariant forall k :: 0 <= k < 16 ==> last[k] == if k < i then msg[off + k] else 0
      {
        last[i] := msg[off + i];
      }
      last[rem] := 0x80;
      var padded := Padded(msg[off..]);
      assert last[..] == padded;
      for i := 0 to 16
        invariant k2[..] == old(k2[..])
        invariant forall k :: 0 <= k < 16 ==> last[k] == if k < i then XorByte(padded[k], k2[k]) else padded[k]
      {
        last[i] := last[i] ^ k2[i];
      }
    }
  }

  lemma MaskedLast(c: Cipher, key: Block, msg: seq<bv8>, off: nat, k1: seq<bv8>, k2: seq<bv8>)
    requires |k1| == |k2| == 16 && Load(k1) == FirstSubkey(c, key) && Load(k2) == Dbl(FirstSubkey(c, key))
    requires off == 16 * (BlockCount(|msg|) - 1)
    requires off <= |msg| && if Complete(|msg|) then |msg| == off + 16 else |msg| - off < 16
    ensures Load(LastBytes(msg, off, k1, k2)) == LastBlock(c, key, msg)
  {
    hide Load;
    hide Dbl;
    hide XorBytes;
    if Complete(|msg|) { LoadXor(msg[off..], k1); } else { LoadXor(Padded(msg[off..]), k2); }
  }

  method CopyBlock(msg: seq<bv8>, off: nat, block: array<bv8>)
    requires Buffer(block) && off + 16 <= |msg|
    modifies block
    ensures block[..] == msg[off..off + 16]
  {
    for i := 0 to 16
      invariant forall k :: 0 <= k < i ==> block[k] == msg[off + k]
    {
      block[i] := msg[off + i];
    }
  }

  /** The CMAC of a message of any length, as the standard defines it. */
  method AesCmac128(key: Block, msg: seq<bv8>) returns (tag: Block)
    ensures tag == Cmac(Aes128(), key, msg)
  {
    hide Load;
    hide XorBytes;
    hide LastBlock;
    hide Xor;
    hide Aes128;
    LastBlockIn(|msg|);
    var last := MakeLast(key, msg);
    var x := ChainBlocks(key, msg, BlockCount(|msg|) - 1);
    var y := new bv8[16](_ => 0);
    LoadXor(x[..], last[..]);
    Xor16(x, last, y);
    AesBlock(y, key, x);
    tag := Load(x[..]);
  }

  method MakeSubkeys(key: Block) returns (k1: array<bv8>, k2: array<bv8>)
    ensures fresh(k1) && fresh(k2) && Buffer(k1) && Buffer(k2)
    ensures Load(k1[..]) == FirstSubkey(Aes128(), key) && Load(k2[..]) == Dbl(FirstSubkey(Aes128(), key))
  {
    hide Load;
    hide Dbl;
    hide Aes128;
    var l := new bv8[16](_ => 0);
    k1, k2 := new bv8[16](_ => 0), new bv8[16](_ => 0);
    ZeroBytes(l[..]);
    AesBlock(l, key, l);
    DoubleInto(l, k1);
    DoubleInto(k1, k2);
  }

  method MakeLast(key: Block, msg: seq<bv8>) returns (last: array<bv8>)
    ensures fresh(last) && Buffer(last) && Load(last[..]) == LastBlock(Aes128(), key, msg)
  {
    hide Load;
    hide Dbl;
    hide LastBlock;
    hide Aes128;
    hide LastBytes;
    hide FirstSubkey;
    var k1, k2 := MakeSubkeys(key);
    var n := BlockCount(|msg|);
    last := new bv8[16](_ => 0);
    LastBlockIn(|msg|);
    FillLast(msg, 16 * (n - 1), k1, k2, last);
    MaskedLast(Aes128(), key, msg, 16 * (n - 1), k1[..], k2[..]);
  }

  /** The chaining loop over the blocks before the last. */
  method ChainBlocks(key: Block, msg: seq<bv8>, n: nat) returns (x: array<bv8>)
    requires 16 * n <= |msg|
    ensures fresh(x) && Buffer(x) && Load(x[..]) == Chain(Aes128(), key, msg, n)
  {
    hide Load;
    hide XorBytes;
    hide Xor;
    hide Aes128;
    x := new bv8[16](_ => 0);
    var y, block := new bv8[16](_ => 0), new bv8[16](_ => 0);
    ZeroBytes(x[..]);
    for b := 0 to n
      invariant Load(x[..]) == Chain(Aes128(), key, msg, b)
    {
      CopyBlock(msg, 16 * b, block);
      LoadXor(x[..], block[..]);
      Xor16(x, block, y);
      AesBlock(y, key, x);
      assert msg[16 * (b + 1 - 1)..16 * (b + 1)] == block[..];
    }
  }

  lemma ZeroBytes(s: seq<bv8>)
    requires |s| == 16 && forall i :: 0 <= i < 16 ==> s[i] == 0
    ensures Load(s) == ZERO
  {
  }
}
