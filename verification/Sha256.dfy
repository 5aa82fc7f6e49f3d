/**
 * SHA-256 as a stream: bytes are absorbed in pieces of any size, and the digest is
 * that of the whole message, padded and processed as sections 5.1.1 and 6.2.2 of
 * FIPS 180-4 lay down.
 */
module Sha256 {
  import opened Words

  // -------------------------------------------------------------- the compression function

  const K: seq<Word> := [
    0x428A_2F98, 0x7137_4491, 0xB5C0_FBCF, 0xE9B5_DBA5, 0x3956_C25B, 0x59F1_11F1, 0x923F_82A4, 0xAB1C_5ED5,
    0xD807_AA98, 0x1283_5B01, 0x2431_85BE, 0x550C_7DC3, 0x72BE_5D74, 0x80DE_B1FE, 0x9BDC_06A7, 0xC19B_F174,
    0xE49B_69C1, 0xEFBE_4786, 0x0FC1_9DC6, 0x240C_A1CC, 0x2DE9_2C6F, 0x4A74_84AA, 0x5CB0_A9DC, 0x76F9_88DA,
    0x983E_5152, 0xA831_C66D, 0xB003_27C8, 0xBF59_7FC7, 0xC6E0_0BF3, 0xD5A7_9147, 0x06CA_6351, 0x1429_2967,
    0x27B7_0A85, 0x2E1B_2138, 0x4D2C_6DFC, 0x5338_0D13, 0x650A_7354, 0x766A_0ABB, 0x81C2_C92E, 0x9272_2C85,
    0xA2BF_E8A1, 0xA81A_664B, 0xC24B_8B70, 0xC76C_51A3, 0xD192_E819, 0xD699_0624, 0xF40E_3585, 0x106A_A070,
    0x19A4_C116, 0x1E37_6C08, 0x2748_774C, 0x34B0_BCB5, 0x391C_0CB3, 0x4ED8_AA4A, 0x5B9C_CA4F, 0x682E_6FF3,
    0x748F_82EE, 0x78A5_636F, 0x84C8_7814, 0x8CC7_0208, 0x90BE_FFFA, 0xA450_6CEB, 0xBEF9_A3F7, 0xC671_78F2
  ]

  datatype Hash = Hash(a: Word, b: Word, c: Word, d: Word, e: Word, f: Word, g: Word, h: Word)

  const H0: Hash := Hash(0x6A09_E667, 0xBB67_AE85, 0x3C6E_F372, 0xA54F_F53A,
                         0x510E_527F, 0x9B05_688C, 0x1F83_D9AB, 0x5BE0_CD19)

  function Add(x: Word, y: Word): Word { x + y }

  function SmallSigma0(x: Word): Word { ((x >> 7) | (x << 25)) ^ ((x >> 18) | (x << 14)) ^ (x >> 3) }

  function SmallSigma1(x: Word): Word { ((x >> 17) | (x << 15)) ^ ((x >> 19) | (x << 13)) ^ (x >> 10) }

  function BigSigma0(x: Word): Word { ((x >> 2) | (x << 30)) ^ ((x >> 13) | (x << 19)) ^ ((x >> 22) | (x << 10)) }

  function BigSigma1(x: Word): Word { ((x >> 6) | (x << 26)) ^ ((x >> 11) | (x << 21)) ^ ((x >> 25) | (x << 7)) }

  function Ch(x: Word, y: Word, z: Word): Word { (x & y) ^ (!x & z) }

  function Maj(x: Word, y: Word, z: Word): Word { (x & y) ^ (x & z) ^ (y & z) }

  function LoadBe(b3: bv8, b2: bv8, b1: bv8, b0: bv8): Word {
    ((b3 as Word) << 24) | ((b2 as Word) << 16) | ((b1 as Word) << 8) | (b0 as Word)
  }

  /** Word `t` of the message schedule of a 64-byte block. */
  function Schedule(block: seq<bv8>, t: nat): Word
    requires |block| == 64 && t < 64
  {
    if t < 16 then LoadBe(block[4 * t], block[4 * t + 1], block[4 * t + 2], block[4 * t + 3])
    else
      Add(Add(Add(Schedule(block, t - 16), SmallSigma0(Schedule(block, t - 15))), Schedule(block, t - 7)),
          SmallSigma1(Schedule(block, t - 2)))
  }

  lemma ScheduleStart(b: seq<bv8>, t: nat)
    requires |b| == 64 && t < 16
    ensures Schedule(b, t) == LoadBe(b[4 * t], b[4 * t + 1], b[4 * t + 2], b[4 * t + 3])
  {
  }

  lemma ScheduleStep(b: seq<bv8>, t: nat)
    requires |b| == 64 && 16 <= t < 64
    ensures Schedule(b, t) == Add(Add(Add(Schedule(b, t - 16), SmallSigma0(Schedule(b, t - 15))), Schedule(b, t - 7)),
                                  SmallSigma1(Schedule(b, t - 2)))
  {
    hide Add;
    hide SmallSigma0;
    hide SmallSigma1;
    hide LoadBe;
  }

  function Round(v: Hash, k: Word, w: Word): Hash {
    var t1 := Add(Add(Add(Add(v.h, BigSigma1(v.e)), Ch(v.e, v.f, v.g)), k), w);
    var t2 := Add(BigSigma0(v.a), Maj(v.a, v.b, v.c));
    Hash(Add(t1, t2), v.a, v.b, v.c, Add(v.d, t1), v.e, v.f, v.g)
  }

  /** The working variables after `t` rounds. */
  function Rounds(v: Hash, block: seq<bv8>, t: nat): Hash
    requires |block| == 64 && t <= 64
  {
    if t == 0 then v else Round(Rounds(v, block, t - 1), K[t - 1], Schedule(block, t - 1))
  }

  function AddHash(x: Hash, y: Hash): Hash {
    Hash(Add(x.a, y.a), Add(x.b, y.b), Add(x.c, y.c), Add(x.d, y.d), Add(x.e, y.e), Add(x.f, y.f), Add(x.g, y.g), Add(x.h, y.h))
  }

  function Compress(v: Hash, block: seq<bv8>): Hash
    requires |block| == 64
  {
    AddHash(v, Rounds(v, block, 64))
  }

  // ------------------------------------------------------------------ the standard's digest

  /** The hash value after the full blocks of `m`. */
  function Fold(v: Hash, m: seq<bv8>): Hash
    requires |m| % 64 == 0
    decreases |m|
  {
    if m == [] then v else Fold(Compress(v, m[..64]), m[64..])
  }

  function Pow256(i: nat): nat { if i == 0 then 1 else 256 * Pow256(i - 1) }

  /** Byte `i`, counted from the least significant, of the bit length of `n` bytes. */
  function LengthByte(n: nat, i: nat): bv8 {
    PowPositive(i);
    ((8 * n / Pow256(i)) % 256) as bv8
  }

  lemma PowPositive(i: nat)
    ensures Pow256(i) > 0
  {
  }

  /** The 64-bit length field. */
  function LengthField(n: nat): (r: seq<bv8>)
    ensures |r| == 8
  {
    seq(8, i requires 0 <= i < 8 => LengthByte(n, 7 - i))
  }

  /** As many zeros as bring the length field to the end of a block. */
  function ZerosNeeded(n: nat): nat { (119 - n % 64) % 64 }

  lemma PaddingFits(n: nat)
    ensures (n + 1 + ZerosNeeded(n) + 8) % 64 == 0
  {
    var q, r := n / 64, n % 64;
    if r <= 55 {
      assert n + 1 + ZerosNeeded(n) + 8 == 64 * (q + 1);
    } else {
      assert n + 1 + ZerosNeeded(n) + 8 == 64 * (q + 2);
    }
  }

  function Zeros(n: nat): (r: seq<bv8>)
    ensures |r| == n && forall i :: 0 <= i < n ==> r[i] == 0
  {
    seq(n, _ => 0)
  }

  function Padded(m: seq<bv8>): (r: seq<bv8>)
    ensures |r| % 64 == 0
  {
    PaddingFits(|m|);
    m + [0x80] + Zeros(ZerosNeeded(|m|)) + LengthField(|m|)
  }

  function Digest(m: seq<bv8>): Hash { Fold(H0, Padded(m)) }

  // ------------------------------------------------------------------------ the stream

  /** Hash value, bytes waiting for a full block, and bytes processed. */
  datatype Ctx = Ctx(state: Hash, block: seq<bv8>, total: nat)

  const INIT: Ctx := Ctx(H0, [], 0)

  function AbsorbByte(c: Ctx, b: bv8): (d: Ctx)
    requires |c.block| < 64
    ensures |d.block| < 64
  {
    var full := c.block + [b];
    if |full| == 64 then Ctx(Compress(c.state, full), [], c.total + 64) else c.(block := full)
  }

  function Absorb(c: Ctx, data: seq<bv8>): (d: Ctx)
    requires |c.block| < 64
    ensures |d.block| < 64
  {
    if data == [] then c else AbsorbByte(Absorb(c, data[..|data| - 1]), data[|data| - 1])
  }

  /** The one or two blocks that end the message. */
  function Finish(c: Ctx): Hash
    requires |c.block| < 64
  {
    var tail := c.block + [0x80];
    var field := LengthField(c.total + |c.block|);
    if |tail| > 56 then Compress(Compress(c.state, tail + Zeros(64 - |tail|)), Zeros(56) + field)
    else Compress(c.state, tail + Zeros(56 - |tail|) + field)
  }

  /** The context stands for the message absorbed so far. */
  predicate Represents(c: Ctx, m: seq<bv8>) {
    && |c.block| < 64 && c.total % 64 == 0 && |m| == c.total + |c.block|
    && m[c.total..] == c.block && c.state == Fold(H0, m[..c.total])
  }

  lemma {:induction false} FoldAppends(v: Hash, m: seq<bv8>, n: seq<bv8>)
    requires |m| % 64 == 0 && |n| % 64 == 0
    ensures (|m| + |n|) % 64 == 0 && Fold(v, m + n) == Fold(Fold(v, m), n)
    decreases |m|
  {
    hide Compress;
    if m == [] {
      assert m + n == n;
    } else {
      FoldAppends(Compress(v, m[..64]), m[64..], n);
      assert (m + n)[..64] == m[..64] && (m + n)[64..] == m[64..] + n;
    }
  }

  lemma FoldOne(v: Hash, b: seq<bv8>)
    requires |b| == 64
    ensures Fold(v, b) == Compress(v, b)
  {
    hide Compress;
    assert b[..64] == b && b[64..] == [];
  }

  lemma AbsorbByteKeeps(c: Ctx, m: seq<bv8>, b: bv8)
    requires Represents(c, m)
    ensures Represents(AbsorbByte(c, b), m + [b])
  {
    hide Compress;
    var n := m + [b];
    assert n[c.total..] == c.block + [b] && n[..c.total] == m[..c.total];
    if |c.block| == 63 {
      var full := c.block + [b];
      FoldAppends(H0, m[..c.total], full);
      FoldOne(c.state, full);
      assert n[..c.total + 64] == m[..c.total] + full && n[c.total + 64..] == [];
    }
  }

  lemma {:induction false} AbsorbKeeps(c: Ctx, m: seq<bv8>, data: seq<bv8>)
    requires Represents(c, m)
    ensures Represents(Absorb(c, data), m + data)
    decreases |data|
  {
    hide Represents;
    hide AbsorbByte;
    RepresentsSize(c, m);
    if data == [] {
      assert m + data == m;
    } else {
      var before, b := data[..|data| - 1], data[|data| - 1];
      AbsorbKeeps(c, m, before);
      AbsorbByteKeeps(Absorb(c, before), m + before, b);
      assert m + before + [b] == m + data;
    }
  }

  lemma RepresentsSize(c: Ctx, m: seq<bv8>)
    requires Represents(c, m)
    ensures |c.block| < 64
  {
  }

  /** The padding of a message, behind its full blocks. */
  lemma PaddedTail(c: Ctx, m: seq<bv8>)
    requires Represents(c, m)
    ensures Padded(m) == m[..c.total] + (c.block + [0x80] + Zeros(ZerosNeeded(|c.block|)) + LengthField(|m|))
  {
    hide LengthField;
    assert m == m[..c.total] + c.block;
    assert |m| % 64 == |c.block| % 64;
    assert ZerosNeeded(|m|) == ZerosNeeded(|c.block|);
    hide ZerosNeeded;
    hide Zeros;
  }

  lemma ShortPads(tail: seq<bv8>, field: seq<bv8>)
    requires 1 <= |tail| <= 56 && |field| == 8
    ensures ZerosNeeded(|tail| - 1) == 56 - |tail| && |tail + Zeros(56 - |tail|) + field| == 64
  {
  }

  lemma LongPads(tail: seq<bv8>, field: seq<bv8>)
    requires 56 < |tail| <= 64 && |field| == 8
    ensures tail + Zeros(ZerosNeeded(|tail| - 1)) + field == (tail + Zeros(64 - |tail|)) + (Zeros(56) + field)
  {
    assert ZerosNeeded(|tail| - 1) == (64 - |tail|) + 56;
    assert Zeros(ZerosNeeded(|tail| - 1)) == Zeros(64 - |tail|) + Zeros(56);
    hide Zeros;
  }

  /** Finishing pads as the standard does. */
  lemma FinishPads(c: Ctx, m: seq<bv8>)
    requires Represents(c, m)
    ensures Finish(c) == Digest(m)
  {
    hide Compress;
    hide LengthField;
    hide Padded;
    hide ZerosNeeded;
    hide Zeros;
    var tail, field := c.block + [0x80], LengthField(|m|);
    var done := m[..c.total];
    PaddedTail(c, m);
    if |tail| > 56 {
      var first, second := tail + Zeros(64 - |tail|), Zeros(56) + field;
      LongPads(tail, field);
      FoldAppends(H0, done, first + second);
      FoldAppends(c.state, first, second);
      FoldOne(c.state, first);
      FoldOne(Compress(c.state, first), second);
    } else {
      var last := tail + Zeros(56 - |tail|) + field;
      ShortPads(tail, field);
      FoldAppends(H0, done, last);
      FoldOne(c.state, last);
    }
  }

  // ------------------------------------------------------------------- pieces

  function AbsorbAll(c: Ctx, pieces: seq<seq<bv8>>): (d: Ctx)
    requires |c.block| < 64
    ensures |d.block| < 64
  {
    if pieces == [] then c else Absorb(AbsorbAll(c, pieces[..|pieces| - 1]), pieces[|pieces| - 1])
  }

  function Joined(pieces: seq<seq<bv8>>): seq<bv8> {
    if pieces == [] then [] else Joined(pieces[..|pieces| - 1]) + pieces[|pieces| - 1]
  }

  lemma {:induction false} PiecesRepresent(pieces: seq<seq<bv8>>)
    ensures Represents(AbsorbAll(INIT, pieces), Joined(pieces))
    decreases |pieces|
  {
    if pieces == [] {
      assert Represents(INIT, []);
    } else {
      hide Represents;
      hide Absorb;
      PiecesRepresent(pieces[..|pieces| - 1]);
      AbsorbKeeps(AbsorbAll(INIT, pieces[..|pieces| - 1]), Joined(pieces[..|pieces| - 1]), pieces[|pieces| - 1]);
    }
  }

  /** Main result: however a message is split, streaming it gives the digest of the whole. */
  lemma StreamingIsDigest(pieces: seq<seq<bv8>>)
    ensures Finish(AbsorbAll(INIT, pieces)) == Digest(Joined(pieces))
  {
    hide Finish;
    hide Digest;
    PiecesRepresent(pieces);
    FinishPads(AbsorbAll(INIT, pieces), Joined(pieces));
  }

  // ---------------------------------------------------------------------- the context

  lemma AbsorbOne(c: Ctx, data: seq<bv8>, i: nat)
    requires |c.block| < 64 && i < |data|
    ensures Absorb(c, data[..i + 1]) == AbsorbByte(Absorb(c, data[..i]), data[i])
  {
    hide AbsorbByte;
    assert data[..i + 1][..i] == data[..i];
  }

  class Sha256Ctx {
    var state: Hash
    const block: array<bv8>
    var blockLen: nat
    var totalLen: nat

    ghost predicate Valid() reads this { block.Length == 64 && blockLen < 64 }

    ghost function Context(): (c: Ctx)
      requires Valid()
      reads this, block
      ensures |c.block| == blockLen
    {
      Ctx(state, block[..blockLen], totalLen)
    }

    constructor ()
      ensures Valid() && fresh(block) && Context() == INIT
    {
      state, blockLen, totalLen := H0, 0, 0;
      block := new bv8[64](_ => 0);
    }

    /** The message schedule of the buffer. */
    method MakeSchedule() returns (w: array<Word>)
      requires block.Length == 64
      ensures fresh(w) && w.Length == 64 && forall t :: 0 <= t < 64 ==> w[t] == Schedule(block[..], t)
    {
      hide Add;
      hide SmallSigma0;
      hide SmallSigma1;
      hide LoadBe;
      hide Schedule;
      ghost var b := block[..];
      w := new Word[64](_ => 0);
      for i := 0 to 16
        invariant forall t :: 0 <= t < i ==> w[t] == Schedule(b, t)
      {
        ScheduleStart(b, i);
        w[i] := LoadBe(block[i * 4], block[i * 4 + 1], block[i * 4 + 2], block[i * 4 + 3]);
      }
      for i := 16 to 64
        invariant forall t :: 0 <= t < i ==> w[t] == Schedule(b, t)
      {
        ScheduleStep(b, i);
        var s0 := SmallSigma0(w[i - 15]);
        var s1 := SmallSigma1(w[i - 2]);
        w[i] := Add(Add(Add(w[i - 16], s0), w[i - 7]), s1);
      }
    }

    /** The compression of a full buffer. */
    method Transform()
      requires block.Length == 64
      modifies `state
      ensures state == Compress(old(state), block[..])
    {
      hide Add;
      hide Round;
      hide Schedule;
      var w := MakeSchedule();
      var v := state;
      for i := 0 to 64
        invariant state == old(state)
        invariant v == Rounds(old(state), block[..], i)
      {
        v := Round(v, K[i], w[i]);
      }
      state := AddHash(state, v);
    }

    method Update(data: seq<bv8>)
      requires Valid()
      modifies this, block
      ensures Valid() && Context() == Absorb(old(Context()), data)
    {
      hide Compress;
      ghost var was := Context();
      for i := 0 to |data|
        invariant Valid() && Context() == Absorb(was, data[..i])
      {
        ghost var before := Context();
        block[blockLen] := data[i];
        blockLen := blockLen + 1;
        assert block[..blockLen] == before.block + [data[i]];
        if blockLen == 64 {
          assert block[..] == block[..blockLen];
          Transform();
          totalLen := totalLen + 64;
          blockLen := 0;
        }
        AbsorbOne(was, data, i);
      }
      assert data[..|data|] == data;
    }

    /** Fills the buffer with zeros up to `end`. */
    method Fill(end: nat)
      requires block.Length == 64 && blockLen <= end <= 64
      modifies `blockLen, block
      ensures blockLen == end && block[..end] == old(block[..blockLen]) + Zeros(end - old(blockLen))
    {
      while blockLen < end
        invariant old(blockLen) <= blockLen <= end
        invariant block[..blockLen] == old(block[..blockLen]) + Zeros(blockLen - old(blockLen))
      {
        ghost var before := block[..blockLen];
        block[blockLen] := 0;
        blockLen := blockLen + 1;
        assert block[..blockLen] == before + [0];
      }
    }

    /** Writes the length behind the zeros, and compresses. */
    method WriteLength(n: nat)
      requires block.Length == 64 && blockLen == 56
      modifies this, block
      ensures state == Compress(old(state), old(block[..56]) + LengthField(n))
    {
      hide Compress;
      hide LengthByte;
      for i := 0 to 8
        invariant blockLen == 56 + i && state == old(state) && block[..56] == old(block[..56])
        invariant block[56..56 + i] == LengthField(n)[..i]
      {
        block[blockLen] := LengthByte(n, 7 - i);
        blockLen := blockLen + 1;
        assert block[56..56 + i + 1] == LengthField(n)[..i + 1];
      }
      assert block[..] == block[..56] + block[56..56 + 8];
      assert LengthField(n)[..8] == LengthField(n);
      Transform();
    }

    /** Ends the message. The digest is the hash value, eight words most significant byte first. */
    method Final() returns (digest: Hash)
      requires Valid()
      modifies this, block
      ensures digest == Finish(old(Context()))
    {
      hide Compress;
      hide Zeros;
      hide LengthField;
      var n := totalLen + blockLen;
      ghost var tail := block[..blockLen] + [0x80];
      block[blockLen] := 0x80;
      blockLen := blockLen + 1;
      assert block[..blockLen] == tail;
      if blockLen > 56 {
        Fill(64);
        assert block[..] == block[..64];
        Transform();
        blockLen := 0;
        Fill(56);
        NoBytes(block[..0], Zeros(56));
        WriteLength(n);
      } else {
        Fill(56);
        WriteLength(n);
      }
      digest := state;
    }
  }

  lemma NoBytes(none: seq<bv8>, s: seq<bv8>)
    requires none == []
    ensures none + s == s
  {
  }
}
