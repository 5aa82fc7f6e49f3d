/** 32-bit words, and the 128-bit blocks of four words that the ciphers work on. */
module Words {

  type Word = bv32

  datatype Block = Block(w0: Word, w1: Word, w2: Word, w3: Word) {
    function At(i: nat): Word
      requires i < 4
    {
      if i == 0 then w0 else if i == 1 then w1 else if i == 2 then w2 else w3
    }

    function Set(i: nat, v: Word): Block
      requires i < 4
    {
      if i == 0 then this.(w0 := v) else if i == 1 then this.(w1 := v)
      else if i == 2 then this.(w2 := v) else this.(w3 := v)
    }
  }

  const ZERO := Block(0, 0, 0, 0)

  function WordXor(a: Word, b: Word): Word { a ^ b }

  function Xor(a: Block, b: Block): Block {
    Block(WordXor(a.w0, b.w0), WordXor(a.w1, b.w1), WordXor(a.w2, b.w2), WordXor(a.w3, b.w3))
  }

  /** A counter value that has been given out when the counter stands at `last`; zero never is. */
  predicate Used(c: Word, last: Word) { 1 <= c <= last }

  lemma UsedAfter(c: Word, last: Word)
    requires last + 1 != 0
    ensures Used(last + 1, last + 1) && !Used(last + 1, last)
    ensures Used(c, last) ==> Used(c, last + 1)
  {
  }

  lemma SetAt(x: Block, i: nat, j: nat, v: Word)
    requires i < 4 && j < 4
    ensures x.Set(i, v).At(j) == if i == j then v else x.At(j)
  {
  }

  /** The block of four words stored at block index `b` of a word memory. */
  function BlockAt(ram: seq<Word>, b: nat): Block
    requires 4 * b + 4 <= |ram|
  {
    Block(ram[4 * b], ram[4 * b + 1], ram[4 * b + 2], ram[4 * b + 3])
  }

  function PutBlock(ram: seq<Word>, b: nat, v: Block): (r: seq<Word>)
    requires 4 * b + 4 <= |ram|
    ensures |r| == |ram| && BlockAt(r, b) == v
    ensures forall i :: 0 <= i < |ram| && i / 4 != b ==> r[i] == ram[i]
    ensures forall d :: 0 <= d && 4 * d + 4 <= |ram| && d != b ==> BlockAt(r, d) == BlockAt(ram, d)
  {
    ram[4 * b := v.w0][4 * b + 1 := v.w1][4 * b + 2 := v.w2][4 * b + 3 := v.w3]
  }

  /**
   * A block cipher, as the functions the rest of the model is proved for. The
   * concrete AES-128 of this repository is one: see module Aes.
   */
  datatype Cipher = Cipher(enc: (Block, Block) -> Block, dec: (Block, Block) -> Block) {
    /** Decryption undoes encryption under every key. */
    ghost predicate Inverts() {
      forall key, x :: dec(key, enc(key, x)) == x
    }
  }
}
