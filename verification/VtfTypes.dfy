/** Messages, requests and tier roles of the Vertical Trust Fabric. */
module VtfTypes {
  import opened Words

  type Key = Block
  type Tag = Block

  const REQUESTERS: nat := 5
  const LAYERS: nat := 4
  const LAYER_WORDS: nat := 1024

  type U3 = x: nat | x < 8
  type U8 = x: nat | x < 0x100
  type U32 = x: nat | x < 0x1_0000_0000

  const REQ_FETCH: U3 := 0
  const REQ_DATA: U3 := 1
  const REQ_SECURITY: U3 := 2
  const REQ_DMA: U3 := 3
  const REQ_DEBUG: U3 := 4

  datatype Role = ExecRole | DataRole | KeyRole | SentinelRole | ReservedRole

  /** What a requester asks for; `tag` authenticates the rest. */
  datatype Request = Request(
    requester: U3, write: bool, layer: U8, addr: U32, data: Word,
    seqNo: Word, epoch: Word, nonce: Word, tag: Tag)

  /** The 256 signed bits, field by field in transmission order. */
  datatype Msg = Msg(
    head: bv16, requester: U8, write: U8, layer: U8, status: bv8, zero: bv16,
    addr: U32, data: Word, seqNo: Word, epoch: Word, nonce: Word, magic: Word)

  function ReqMsg(r: Request): Msg {
    Msg(0xC3D1, r.requester, if r.write then 1 else 0, r.layer, 0, 0,
        r.addr, r.data, r.seqNo, r.epoch, r.nonce, 0x5654_4631)
  }

  function RspMsg(r: Request, status: bv8, data: Word): Msg {
    Msg(0xC3D2, r.requester, if r.write then 1 else 0, r.layer, status, 0,
        r.addr, data, r.seqNo, r.epoch, r.nonce, 0x5654_4632)
  }

  // ------------------------------------------------------------------ bit flips

  predicate OneBit8(x: bv8) { x != 0 && x & (x - 1) == 0 }

  function ByteOf(x: Word, i: bv6): bv8
    requires i <= 24
  {
    ((x >> i) & 0xFF) as bv8
  }

  predicate OneBitIn(x: Word, i: bv6) requires i <= 24 { OneBit8(ByteOf(x, i)) }

  predicate ZeroIn(x: Word, i: bv6) requires i <= 24 { ByteOf(x, i) == 0 }

  /** Exactly one bit set: in one byte, with the other bytes zero. */
  predicate OneBit(x: Word) {
    (OneBitIn(x, 0) && ZeroIn(x, 8) && ZeroIn(x, 16) && ZeroIn(x, 24)) ||
    (OneBitIn(x, 8) && ZeroIn(x, 0) && ZeroIn(x, 16) && ZeroIn(x, 24)) ||
    (OneBitIn(x, 16) && ZeroIn(x, 0) && ZeroIn(x, 8) && ZeroIn(x, 24)) ||
    (OneBitIn(x, 24) && ZeroIn(x, 0) && ZeroIn(x, 8) && ZeroIn(x, 16))
  }

  predicate Flipped(a: Word, b: Word) { OneBit(a ^ b) }

  predicate Flipped8(a: bv8, b: bv8) { OneBit8(a ^ b) }

  predicate Flipped128(a: Block, b: Block) {
    (Flipped(a.w0, b.w0) && a == b.(w0 := a.w0)) ||
    (Flipped(a.w1, b.w1) && a == b.(w1 := a.w1)) ||
    (Flipped(a.w2, b.w2) && a == b.(w2 := a.w2)) ||
    (Flipped(a.w3, b.w3) && a == b.(w3 := a.w3))
  }

  /** Equal, or one bit apart. */
  predicate Near(a: Tag, b: Tag) { a == b || Flipped128(a, b) }

  function Parity8(x: bv8): bool {
    var a := x ^ (x >> 4);
    var b := a ^ (a >> 2);
    var c := b ^ (b >> 1);
    c & 1 == 1
  }

  function ParityIn(x: Word, i: bv6): bool requires i <= 24 { Parity8(ByteOf(x, i)) }

  function Parity(x: Word): bool {
    (ParityIn(x, 0) != ParityIn(x, 8)) != (ParityIn(x, 16) != ParityIn(x, 24))
  }

  lemma FlipChangesParity8(a: bv8, b: bv8)
    requires Flipped8(a, b)
    ensures Parity8(a) != Parity8(b)
  {
  }

  lemma ByteOfXor(a: Word, b: Word)
    ensures ByteOf(a ^ b, 0) == ByteOf(a, 0) ^ ByteOf(b, 0)
    ensures ByteOf(a ^ b, 8) == ByteOf(a, 8) ^ ByteOf(b, 8)
    ensures ByteOf(a ^ b, 16) == ByteOf(a, 16) ^ ByteOf(b, 16)
    ensures ByteOf(a ^ b, 24) == ByteOf(a, 24) ^ ByteOf(b, 24)
  {
  }

  lemma ByteFlip(a: bv8, b: bv8)
    ensures OneBit8(a ^ b) ==> Parity8(a) != Parity8(b)
    ensures a ^ b == 0 ==> a == b
  {
  }

  lemma ByteStep(a: Word, b: Word, i: bv6)
    requires i == 0 || i == 8 || i == 16 || i == 24
    ensures OneBitIn(a ^ b, i) ==> ParityIn(a, i) != ParityIn(b, i)
    ensures ZeroIn(a ^ b, i) ==> ParityIn(a, i) == ParityIn(b, i)
  {
    hide ByteOf;
    hide Parity8;
    hide OneBit8;
    ByteOfXor(a, b);
    ByteFlip(ByteOf(a, i), ByteOf(b, i));
  }

  /** Every single-bit upset of a word changes its parity. */
  lemma FlipChangesParity(a: Word, b: Word)
    requires Flipped(a, b)
    ensures Parity(a) != Parity(b)
  {
    hide OneBitIn;
    hide ZeroIn;
    hide ParityIn;
    ByteStep(a, b, 0);
    ByteStep(a, b, 8);
    ByteStep(a, b, 16);
    ByteStep(a, b, 24);
  }
}
