/** The sealing functions as they work on the memory layer, in place, locking security on failure. */
module SealOps {
  import opened Words
  import opened Numbers
  import opened BlockMap
  import opened Regions
  import opened HiddenKey
  import opened SealedImage

  lemma PlacedAboveHeader(l: Layout, a: nat)
    requires KEY_BLOCK_WORDS <= l.textStart <= a < l.textEnd <= IMAGE_WORDS
    ensures KEY_BLOCK_WORDS <= Placed(l, a) < IMAGE_WORDS
  {
    hide BuildMapParams;
    hide MapBlock;
    MapPermutes(l.textStart, l.textEnd, l.epoch);
    MapRange(l.textStart, l.textEnd, l.epoch);
  }

  /** Nothing that is measured lies in the header. */
  lemma TextIgnoresHeader(ram: seq<Word>, other: seq<Word>, l: Layout)
    requires |ram| == |other| == IMAGE_WORDS && KEY_BLOCK_WORDS <= l.textStart <= l.textEnd <= IMAGE_WORDS
    requires forall i :: KEY_BLOCK_WORDS <= i < IMAGE_WORDS ==> other[i] == ram[i]
    ensures TextWords(other, l) == TextWords(ram, l)
  {
    hide Placed;
    forall i | 0 <= i < l.textEnd - l.textStart ensures TextWords(other, l)[i] == TextWords(ram, l)[i] {
      PlacedAboveHeader(l, l.textStart + i);
    }
  }

  class SecureLayer {
    const x: Suite
    const mem: array<Word>
    var locked: bool

    ghost predicate Valid() reads this { mem.Length == IMAGE_WORDS }

    constructor (x: Suite)
      ensures Valid() && this.x == x && !locked && fresh(mem)
    {
      this.x := x;
      mem := new Word[IMAGE_WORDS](_ => 0);
      locked := false;
    }

    method WriteHeader(h: Header)
      requires Valid()
      modifies mem
      ensures mem[..] == PutHeader(old(mem[..]), h)
    {
      hide HeaderWord;
      for i := 0 to KEY_BLOCK_WORDS
        invariant forall j: nat :: j < i ==> mem[j] == HeaderWord(h, j)
        invariant forall j :: i <= j < IMAGE_WORDS ==> mem[j] == old(mem[j])
      {
        mem[i] := HeaderWord(h, i);
      }
    }

    /** Fills the header with noise before it is written. */
    method Scramble(nonce: Block)
      requires Valid()
      modifies mem
      ensures forall i :: KEY_BLOCK_WORDS <= i < IMAGE_WORDS ==> mem[i] == old(mem[i])
    {
      hide PrngStep;
      hide WordOf;
      hide Rotl;
      var seed := nonce.w0 ^ Rotl(nonce.w1, 7) ^ 0xD00D_FEED;
      for i := 0 to KEY_BLOCK_WORDS
        invariant forall j :: KEY_BLOCK_WORDS <= j < IMAGE_WORDS ==> mem[j] == old(mem[j])
      {
        seed := PrngStep(seed + WordOf(i) * 0x9E37_79B9);
        mem[i] := seed;
      }
    }

    /** Seals the layer. */
    method CreateLargeBlock(request: Layout, key: Block) returns (rc: int)
      requires Valid()
      modifies mem, this`locked
      ensures var r := Seal(x, old(mem[..]), request, key); rc == r.rc && mem[..] == r.ram
      ensures locked == (old(locked) || rc != 0)
    {
      hide TextWords;
      hide DataWords;
      hide Normalize;
      hide GeneratePositions;
      hide Hide;
      hide Extract;
      hide HeaderWord;
      hide Holds;
      ghost var ram := mem[..];
      var l := Normalize(request);
      var nonce := (x.nonce)(key, l);
      Scramble(nonce);
      TextIgnoresHeader(ram, mem[..], l);
      var meas := Measured(x, mem[..], l, nonce);
      var session := (x.session)(l, nonce, meas);
      var h := Header(l, nonce, (x.cipher.enc)(session, key), ZERO, ZERO, meas);
      assert h == NewHeader(x, ram, request, key);
      WriteHeader(h);
      PutHeaderAgain(ram, mem[..], h);
      var positions := new Position[KEY_BITS](_ => Position(0, 0));
      var found := FindPositions(nonce, l.textStart, l.textEnd, IMAGE_WORDS, positions);
      if !found {
        locked := true;
        return -20;
      }
      assert positions[..] == Places(h);
      HideWrapped(mem, positions[..], h.wrapped);
      var hidden := ExtractHidden(mem, positions[..]);
      h := Tagged(x, mem[..], h, hidden);
      WriteHeader(h);
      return 0;
    }

    /** The checks shared by validation and resealing, in their order. */
    method CheckHeader() returns (rc: int)
      requires Valid()
      modifies this`locked
      ensures rc == CheckKey(x, mem[..]) && locked == (old(locked) || rc != 0)
    {
      hide TextWords;
      hide Decode;
      hide Decodes;
      hide GeneratePositions;
      hide Extract;
      if !Decodes(mem[..]) {
        locked := true;
        return -1;
      }
      var h := Decode(mem[..]);
      DecodedFits(mem[..]);
      var positions := new Position[KEY_BITS](_ => Position(0, 0));
      var found := FindPositions(h.nonce, h.l.textStart, h.l.textEnd, IMAGE_WORDS, positions);
      if !found {
        locked := true;
        return -2;
      }
      assert positions[..] == Places(h);
      var hidden := ExtractHidden(mem, positions[..]);
      if hidden != h.wrapped {
        locked := true;
        return -3;
      }
      var meas := Measured(x, mem[..], h.l, h.nonce);
      var session := (x.session)(h.l, h.nonce, meas);
      if meas != h.meas {
        locked := true;
        return -4;
      }
      if (x.keyTag)(h.l, h.nonce, hidden, session, meas) != h.keyTag {
        locked := true;
        return -5;
      }
      return 0;
    }

    method ValidateImage() returns (rc: int)
      requires Valid()
      modifies this`locked
      ensures rc == Validate(x, mem[..]) && locked == (old(locked) || rc != 0)
    {
      hide CheckKey;
      hide ImageTag;
      hide Session;
      rc := CheckHeader();
      if rc != 0 { return rc; }
      CheckedDecodes(x, mem[..]);
      hide Decode;
      var h := Decode(mem[..]);
      if ImageTag(x, mem[..], h, Session(x, mem[..], h)) != h.imgTag {
        locked := true;
        return -6;
      }
      return 0;
    }

    method ExtractKey() returns (rc: int, key: Block)
      requires Valid()
      modifies this`locked
      ensures (rc, key) == Open(x, mem[..]) && locked == (old(locked) || rc != 0)
    {
      hide Validate;
      hide Decode;
      hide Session;
      key := ZERO;
      rc := ValidateImage();
      if rc != 0 { return rc, key; }
      ValidatedDecodes(x, mem[..]);
      var h := Decode(mem[..]);
      return 0, (x.cipher.dec)(Session(x, mem[..], h), h.wrapped);
    }

    method ResealImage() returns (rc: int)
      requires Valid()
      modifies mem, this`locked
      ensures var r := Reseal(x, old(mem[..])); rc == r.rc && mem[..] == r.ram
      ensures locked == (old(locked) || rc != 0)
    {
      hide CheckKey;
      hide Decodes;
      hide ImageTag;
      hide Session;
      hide Decode;
      if !Decodes(mem[..]) {
        locked := true;
        return -1;
      }
      DecodedFits(mem[..]);
      var h := Decode(mem[..]);
      if h.l.policy & RESEAL_READY == 0 { return 0; }
      rc := CheckHeader();
      if rc != 0 { return rc; }
      var tag := ImageTag(x, mem[..], h, Session(x, mem[..], h));
      mem[20] := tag.w0;
      mem[21] := tag.w1;
      mem[22] := tag.w2;
      mem[23] := tag.w3;
      return 0;
    }
  }

  /** Writing a header over a scrambled one gives the same image. */
  lemma PutHeaderAgain(ram: seq<Word>, other: seq<Word>, h: Header)
    requires |ram| == |other| == IMAGE_WORDS && Holds(other, h)
    requires forall i :: KEY_BLOCK_WORDS <= i < IMAGE_WORDS ==> other[i] == ram[i]
    ensures other == PutHeader(ram, h)
  {
    hide HeaderWord;
  }

  lemma DecodedFits(ram: seq<Word>)
    requires |ram| == IMAGE_WORDS && Decodes(ram)
    ensures WellFormed(Decode(ram).l)
  {
  }

  lemma CheckedDecodes(x: Suite, ram: seq<Word>)
    requires |ram| == IMAGE_WORDS && CheckKey(x, ram) == 0
    ensures WellFormed(Decode(ram).l)
  {
    hide Extract;
    hide TextWords;
    hide Decode;
    hide GeneratePositions;
  }

  lemma ValidatedDecodes(x: Suite, ram: seq<Word>)
    requires |ram| == IMAGE_WORDS && Validate(x, ram) == 0
    ensures WellFormed(Decode(ram).l)
  {
    hide Decode;
    hide CheckKey;
    CheckedDecodes(x, ram);
  }
}
