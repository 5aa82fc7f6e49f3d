/**
 * The encryptor's and the decryptor's block loops over the text region, which is
 * stored where the block map says, and over the data region, which stays in place.
 */
module Regions {
  import opened Words
  import opened Numbers
  import opened BlockMap

  const IMAGE_WORDS: nat := 1024
  const KEY_BLOCK_WORDS: nat := 32

  /**
   * `ram` is `plain` with the blocks `first` to `last` encrypted and block `b` stored at
   * `place(b)`; every word outside these blocks is as it was.
   */
  ghost predicate Encrypted(c: Cipher, key: Block, p: MapParams, first: nat, last: nat, plain: seq<Word>, ram: seq<Word>) {
    && |ram| == |plain| && 4 * last <= |plain| && first <= last && Closed(p, first, last)
    && (forall b :: first <= b < last ==> StoredAt(c, key, p, plain, ram, last, b))
    && (forall i :: 0 <= i < |plain| && !(4 * first <= i < 4 * last) ==> ram[i] == plain[i])
  }

  /** The map keeps the blocks of the region inside it, each in a place of its own. */
  ghost predicate Closed(p: MapParams, first: nat, last: nat) {
    && (forall b :: first <= b < last ==> first <= MapBlock(b, p) < last)
    && (forall a, b :: first <= a < last && first <= b < last && MapBlock(a, p) == MapBlock(b, p) ==> a == b)
  }

  ghost predicate StoredAt(c: Cipher, key: Block, p: MapParams, plain: seq<Word>, ram: seq<Word>, last: nat, b: nat)
    requires |ram| == |plain| && 4 * last <= |plain| && b < last && MapBlock(b, p) < last
  {
    BlockAt(ram, MapBlock(b, p)) == (c.enc)(key, BlockAt(plain, b))
  }

  /** The map that leaves every block where it is: how the data region is stored. */
  const IN_PLACE := MapParams(0, 0, 1, 0)

  lemma InPlaceIsClosed(first: nat, last: nat)
    ensures Closed(IN_PLACE, first, last)
  {
  }

  lemma MapIsClosed(textStart: nat, textEnd: nat, epoch: Word)
    requires textStart / 4 <= textEnd / 4
    ensures Closed(BuildMapParams(textStart, textEnd, epoch), textStart / 4, textEnd / 4)
  {
    hide BuildMapParams;
    hide MapBlock;
    MapPermutes(textStart, textEnd, epoch);
    MapRange(textStart, textEnd, epoch);
  }

  lemma MapRange(textStart: nat, textEnd: nat, epoch: Word)
    requires textStart / 4 <= textEnd / 4
    ensures var p := BuildMapParams(textStart, textEnd, epoch); p.start == textStart / 4 && p.start + p.count == textEnd / 4
  {
    hide MapSeed;
    hide PrngStep;
    hide NatOf;
    hide Search;
    hide FirstCandidate;
  }

  /** The plaintext block a reader recovers at logical block `b`. */
  function Recovered(c: Cipher, key: Block, p: MapParams, ram: seq<Word>, b: nat): Block
    requires 4 * MapBlock(b, p) + 4 <= |ram|
  {
    (c.dec)(key, BlockAt(ram, MapBlock(b, p)))
  }

  /** Whatever key and map: decrypting an encrypted region recovers every block of it. */
  lemma RecoversBlock(c: Cipher, key: Block, p: MapParams, first: nat, last: nat, plain: seq<Word>, ram: seq<Word>, b: nat)
    requires c.Inverts() && Encrypted(c, key, p, first, last, plain, ram) && first <= b < last
    ensures 4 * MapBlock(b, p) + 4 <= |ram| && Recovered(c, key, p, ram, b) == BlockAt(plain, b)
  {
    hide MapBlock;
    hide BlockAt;
    assert StoredAt(c, key, p, plain, ram, last, b);
  }

  // ------------------------------------------------------------------ encryption

  /** Blocks done so far are in the buffer, encrypted, and the rest of the buffer is as it was. */
  ghost predicate Progress(c: Cipher, key: Block, p: MapParams, first: nat, last: nat, plain: seq<Word>, buf: seq<Word>, n: nat)
    requires |buf| == |plain| && 4 * last <= |plain| && first <= n <= last && Closed(p, first, last)
  {
    && (forall b :: first <= b < n ==> StoredAt(c, key, p, plain, buf, last, b))
    && (forall i :: 0 <= i < |plain| && !(4 * first <= i < 4 * last) ==> buf[i] == plain[i])
  }

  lemma ProgressStep(c: Cipher, key: Block, p: MapParams, first: nat, last: nat, plain: seq<Word>, buf: seq<Word>, n: nat)
    requires |buf| == |plain| && 4 * last <= |plain| && first <= n < last && Closed(p, first, last)
    requires Progress(c, key, p, first, last, plain, buf, n)
    ensures Progress(c, key, p, first, last, plain, PutBlock(buf, MapBlock(n, p), (c.enc)(key, BlockAt(plain, n))), n + 1)
  {
    hide MapBlock;
    hide BlockAt;
    hide PutBlock;
    var t := PutBlock(buf, MapBlock(n, p), (c.enc)(key, BlockAt(plain, n)));
    forall b | first <= b < n + 1 ensures StoredAt(c, key, p, plain, t, last, b) {
      if b < n { assert StoredAt(c, key, p, plain, buf, last, b); }
    }
    forall i | 0 <= i < |plain| && !(4 * first <= i < 4 * last) ensures t[i] == plain[i] {
      assert i / 4 != MapBlock(n, p);
    }
  }

  method ReadBlock(mem: array<Word>, b: nat) returns (x: Block)
    requires 4 * b + 4 <= mem.Length
    ensures x == BlockAt(mem[..], b)
  {
    x := Block(mem[4 * b], mem[4 * b + 1], mem[4 * b + 2], mem[4 * b + 3]);
  }

  method WriteBlock(mem: array<Word>, b: nat, x: Block)
    requires 4 * b + 4 <= mem.Length
    modifies mem
    ensures mem[..] == PutBlock(old(mem[..]), b, x)
  {
    mem[4 * b] := x.w0;
    mem[4 * b + 1] := x.w1;
    mem[4 * b + 2] := x.w2;
    mem[4 * b + 3] := x.w3;
  }

  /** Copies the whole image into the buffer. */
  method Snapshot(mem: array<Word>, buf: array<Word>)
    requires mem.Length == buf.Length && mem != buf
    modifies buf
    ensures buf[..] == mem[..]
  {
    for i := 0 to mem.Length
      invariant forall j :: 0 <= j < i ==> buf[j] == mem[j]
    {
      buf[i] := mem[i];
    }
    assert buf[..] == mem[..];
  }

  method CopyBack(mem: array<Word>, buf: array<Word>, from: nat, to: nat)
    requires mem.Length == buf.Length && mem != buf && from <= to <= mem.Length
    modifies mem
    ensures forall i :: 0 <= i < mem.Length ==> mem[i] == if from <= i < to then buf[i] else old(mem[i])
  {
    for i := from to to
      invariant forall j :: 0 <= j < mem.Length ==> mem[j] == if from <= j < i then buf[j] else old(mem[j])
    {
      mem[i] := buf[i];
    }
  }

  /**
   * Encrypts the text region block by block into its mapped places. Fails only on
   * a region that reaches into the header or beyond the image.
   */
  method EncryptText(mem: array<Word>, buf: array<Word>, textStart: nat, textEnd: nat, epoch: Word, c: Cipher, key: Block)
    returns (ok: bool)
    requires mem.Length == buf.Length == IMAGE_WORDS && mem != buf
    requires textStart <= textEnd <= IMAGE_WORDS && textStart % 4 == 0 && textEnd % 4 == 0
    modifies mem, buf
    ensures ok == (textStart == textEnd || textStart >= KEY_BLOCK_WORDS)
    ensures !ok ==> mem[..] == old(mem[..])
    ensures ok ==> Encrypted(c, key, BuildMapParams(textStart, textEnd, epoch), textStart / 4, textEnd / 4, old(mem[..]), mem[..])
  {
    hide BuildMapParams;
    hide MapBlock;
    hide StoredAt;
    hide PutBlock;
    hide BlockAt;
    ghost var plain := mem[..];
    var first, last := textStart / 4, textEnd / 4;
    var p := BuildParams(textStart, textEnd, epoch);
    MapIsClosed(textStart, textEnd, epoch);
    Snapshot(mem, buf);
    var blk := first;
    while blk < last
      invariant first <= blk <= last && mem[..] == plain
      invariant Progress(c, key, p, first, last, plain, buf[..], blk)
      invariant blk == first || textStart >= KEY_BLOCK_WORDS
    {
      if 4 * blk < KEY_BLOCK_WORDS { return false; }
      var x := ReadBlock(mem, blk);
      var phys := MapBlock(blk, p);
      if 4 * phys < KEY_BLOCK_WORDS || 4 * phys + 4 > IMAGE_WORDS { return false; }
      ProgressStep(c, key, p, first, last, plain, buf[..], blk);
      WriteBlock(buf, phys, (c.enc)(key, x));
      blk := blk + 1;
    }
    CopyBack(mem, buf, textStart, textEnd);
    CopiedRegion(c, key, p, first, last, plain, buf[..], mem[..]);
    return true;
  }

  lemma CopiedRegion(c: Cipher, key: Block, p: MapParams, first: nat, last: nat, plain: seq<Word>, buf: seq<Word>, mem: seq<Word>)
    requires |buf| == |plain| == |mem| && 4 * last <= |plain| && first <= last && Closed(p, first, last)
    requires Progress(c, key, p, first, last, plain, buf, last)
    requires forall i :: 0 <= i < |mem| ==> mem[i] == if 4 * first <= i < 4 * last then buf[i] else plain[i]
    ensures Encrypted(c, key, p, first, last, plain, mem)
  {
    hide MapBlock;
    forall b | first <= b < last ensures StoredAt(c, key, p, plain, mem, last, b) {
      assert StoredAt(c, key, p, plain, buf, last, b);
    }
  }

  /** Encrypts the data region in place. */
  method EncryptData(mem: array<Word>, buf: array<Word>, dataStart: nat, dataEnd: nat, c: Cipher, key: Block)
    requires mem.Length == buf.Length == IMAGE_WORDS && mem != buf
    requires dataStart <= dataEnd <= IMAGE_WORDS && dataStart % 4 == 0 && dataEnd % 4 == 0
    modifies mem, buf
    ensures Encrypted(c, key, IN_PLACE, dataStart / 4, dataEnd / 4, old(mem[..]), mem[..])
  {
    hide StoredAt;
    hide PutBlock;
    hide BlockAt;
    ghost var plain := mem[..];
    var first, last := dataStart / 4, dataEnd / 4;
    InPlaceIsClosed(first, last);
    Snapshot(mem, buf);
    var blk := first;
    while blk < last
      invariant first <= blk <= last && mem[..] == plain
      invariant Progress(c, key, IN_PLACE, first, last, plain, buf[..], blk)
    {
      var x := ReadBlock(mem, blk);
      ProgressStep(c, key, IN_PLACE, first, last, plain, buf[..], blk);
      WriteBlock(buf, blk, (c.enc)(key, x));
      blk := blk + 1;
    }
    CopyBack(mem, buf, dataStart, dataEnd);
    CopiedRegion(c, key, IN_PLACE, first, last, plain, buf[..], mem[..]);
  }

  // ------------------------------------------------------------------ decryption

  /** The decryptor's loop over the text region. */
  method DecryptText(mem: array<Word>, textStart: nat, textWords: nat, textEnd: nat, epoch: Word, c: Cipher, key: Block)
    returns (text: array<Word>)
    requires mem.Length == IMAGE_WORDS && textStart + textWords <= textEnd <= IMAGE_WORDS
    requires textStart % 4 == 0 && textEnd % 4 == 0
    ensures text.Length == textWords
    ensures Closed(BuildMapParams(textStart, textEnd, epoch), textStart / 4, textEnd / 4)
    ensures forall w :: textStart <= w < textStart + textWords ==>
      text[w - textStart] == Recovered(c, key, BuildMapParams(textStart, textEnd, epoch), mem[..], w / 4).At(w % 4)
  {
    hide BuildMapParams;
    hide MapBlock;
    hide BlockAt;
    hide Block.At;
    var p := BuildParams(textStart, textEnd, epoch);
    MapIsClosed(textStart, textEnd, epoch);
    text := new Word[textWords](_ => 0);
    var first, last := textStart / 4, textEnd / 4;
    var blk := first;
    while blk < last
      invariant first <= blk <= last
      invariant forall w :: textStart <= w < textStart + textWords && w < 4 * blk ==>
        text[w - textStart] == Recovered(c, key, p, mem[..], w / 4).At(w % 4)
    {
      var cipher := ReadBlock(mem, MapBlock(blk, p));
      var plain := (c.dec)(key, cipher);
      var i := 0;
      while i < 4
        invariant i <= 4
        invariant forall w :: textStart <= w < textStart + textWords && w < 4 * blk + i ==>
          text[w - textStart] == Recovered(c, key, p, mem[..], w / 4).At(w % 4)
      {
        var addr := 4 * blk + i;
        assert addr / 4 == blk && addr % 4 == i;
        if textStart <= addr < textStart + textWords { text[addr - textStart] := plain.At(i); }
        i := i + 1;
      }
      blk := blk + 1;
    }
  }

  lemma WordOfBlock(ram: seq<Word>, w: nat)
    requires |ram| % 4 == 0 && w < |ram|
    ensures 4 * (w / 4) + 4 <= |ram| && BlockAt(ram, w / 4).At(w % 4) == ram[w]
  {
  }

  /**
   * For every text that fits, every epoch and every key: what the decryptor reads
   * from an encrypted region is the text that was encrypted, word for word.
   */
  lemma TextRoundTrip(c: Cipher, key: Block, textStart: nat, textEnd: nat, epoch: Word, plain: seq<Word>, ram: seq<Word>, w: nat)
    requires c.Inverts() && |plain| == IMAGE_WORDS && textStart % 4 == 0 && textEnd % 4 == 0 && textStart <= w < textEnd
    requires Encrypted(c, key, BuildMapParams(textStart, textEnd, epoch), textStart / 4, textEnd / 4, plain, ram)
    ensures var p := BuildMapParams(textStart, textEnd, epoch);
      4 * MapBlock(w / 4, p) + 4 <= |ram| && Recovered(c, key, p, ram, w / 4).At(w % 4) == plain[w]
  {
    hide BuildMapParams;
    hide MapBlock;
    RecoversBlock(c, key, BuildMapParams(textStart, textEnd, epoch), textStart / 4, textEnd / 4, plain, ram, w / 4);
    WordOfBlock(plain, w);
    hide BlockAt;
  }
}
