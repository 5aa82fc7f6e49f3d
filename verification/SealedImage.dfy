/**
 * Sealing, validating, opening and resealing an image. Key derivation and tags
 * are functions of exactly the values the source feeds them.
 */
module SealedImage {
  import opened Words
  import opened Numbers
  import opened BlockMap
  import opened Regions
  import opened HiddenKey

  const MAGIC: Word := 0x3344_4352
  const VERSION: Word := 0x0002_0000
  const FLAGS: Word := 0xF
  const RESEAL_READY: Word := 4

  /** Regions, policy and epoch of an image. */
  datatype Layout = Layout(
    policy: Word, textStart: nat, textWords: nat, textEnd: nat,
    dataStart: nat, dataWords: nat, dataEnd: nat, dataFlags: Word, epoch: Word)

  datatype Header = Header(l: Layout, nonce: Block, wrapped: Block, keyTag: Block, imgTag: Block, meas: Block)

  /** The ciphers, hashes and the hardware root, as functions of what they are given. */
  datatype Suite = Suite(
    cipher: Cipher,
    nonce: (Block, Layout) -> Block,
    measure: (Layout, Block, seq<Word>) -> Block,
    session: (Layout, Block, Block) -> Block,
    keyTag: (Layout, Block, Block, Block, Block) -> Block,
    imgTag: (Layout, Block, Block, Block, seq<Word>, seq<Word>) -> Block)

  // ---------------------------------------------------------------------- the layout

  function Min(a: nat, b: nat): nat { if a < b then a else b }

  /** Text bounds as sealing corrects them. */
  function TextBounds(start: nat, end: nat): (r: (nat, nat))
    ensures KEY_BLOCK_WORDS <= r.0 <= r.1 <= IMAGE_WORDS
  {
    var s := if start < KEY_BLOCK_WORDS || start > IMAGE_WORDS then KEY_BLOCK_WORDS else start;
    (s, if end < s then s else Min(end, IMAGE_WORDS))
  }

  /** The start of the block that holds word `a`. */
  function RoundDown(a: nat): (r: nat)
    ensures r <= a < r + 4 && r % 4 == 0
  {
    a - a % 4
  }

  /** The end of the last block needed for `a` words. */
  function RoundUp(a: nat): (r: nat)
    ensures a <= r < a + 4 && r % 4 == 0
  {
    if a % 4 == 0 then a else a + (4 - a % 4)
  }

  /** Data bounds as sealing corrects them, behind a text region that ends at `textEnd`. */
  function DataBounds(start: nat, end: nat, textEnd: nat): (r: (nat, nat))
    requires textEnd <= IMAGE_WORDS
    ensures textEnd <= r.0 <= r.1 <= IMAGE_WORDS && r.1 % 4 == 0 && (textEnd % 4 == 0 ==> r.0 % 4 == 0)
    ensures RawData(start, end, textEnd) <= r.1 - r.0
  {
    var s := if start < textEnd || start > IMAGE_WORDS then textEnd else start;
    var e := if end < s then s else Min(end, IMAGE_WORDS);
    (if RoundDown(s) < textEnd then textEnd else RoundDown(s), Min(RoundUp(e), IMAGE_WORDS))
  }

  function RawData(start: nat, end: nat, textEnd: nat): nat
    requires textEnd <= IMAGE_WORDS
  {
    var s := if start < textEnd || start > IMAGE_WORDS then textEnd else start;
    (if end < s then s else Min(end, IMAGE_WORDS)) - s
  }

  function Normalize(l: Layout): (n: Layout)
    ensures KEY_BLOCK_WORDS <= n.textStart <= n.textEnd <= n.dataStart <= n.dataEnd <= IMAGE_WORDS
    ensures n.textWords <= n.textEnd - n.textStart && n.dataWords <= n.dataEnd - n.dataStart && n.epoch != 0
    ensures n.textEnd % 4 == 0 ==> n.dataStart % 4 == 0
    ensures n.dataEnd % 4 == 0 && n.dataFlags == l.dataFlags && n.policy == l.policy
  {
    var (ts, te) := TextBounds(l.textStart, l.textEnd);
    var (ds, de) := DataBounds(l.dataStart, l.dataEnd, te);
    Layout(l.policy, ts, Min(l.textWords, te - ts), te, ds, Min(l.dataWords, RawData(l.dataStart, l.dataEnd, te)), de,
           l.dataFlags, if l.epoch == 0 then 1 else l.epoch)
  }

  /** What header decoding accepts. */
  predicate WellFormed(l: Layout) {
    && KEY_BLOCK_WORDS <= l.textStart <= l.textEnd <= l.dataStart <= l.dataEnd <= IMAGE_WORDS
    && l.textWords <= l.textEnd - l.textStart && l.dataWords <= l.dataEnd - l.dataStart
    && l.textStart % 4 == 0 && l.textEnd % 4 == 0 && l.dataStart % 4 == 0 && l.dataEnd % 4 == 0
    && l.epoch != 0
  }

  // ---------------------------------------------------------------------- the header

  /** Word `i` of the stored header. */
  function HeaderWord(h: Header, i: nat): Word
    requires i < KEY_BLOCK_WORDS
  {
    if i == 0 then MAGIC else if i == 1 then VERSION else if i == 2 then FLAGS else if i == 3 then h.l.policy
    else if i == 4 then WordOf(h.l.textStart) else if i == 5 then WordOf(h.l.textWords)
    else if i == 6 then WordOf(h.l.textEnd) else if i == 7 then h.l.epoch
    else if i < 12 then h.nonce.At(i - 8) else if i < 16 then h.wrapped.At(i - 12)
    else if i < 20 then h.keyTag.At(i - 16) else if i < 24 then h.imgTag.At(i - 20)
    else if i < 28 then h.meas.At(i - 24)
    else if i == 28 then WordOf(h.l.dataStart) else if i == 29 then WordOf(h.l.dataWords)
    else if i == 30 then WordOf(h.l.dataEnd) else h.l.dataFlags
  }

  function BlockFrom(ram: seq<Word>, i: nat): Block
    requires i + 4 <= |ram|
  {
    Block(ram[i], ram[i + 1], ram[i + 2], ram[i + 3])
  }

  function Decode(ram: seq<Word>): Header
    requires |ram| == IMAGE_WORDS
  {
    Header(Layout(ram[3], NatOf(ram[4]), NatOf(ram[5]), NatOf(ram[6]), NatOf(ram[28]), NatOf(ram[29]), NatOf(ram[30]),
                  ram[31], ram[7]),
           BlockFrom(ram, 8), BlockFrom(ram, 12), BlockFrom(ram, 16), BlockFrom(ram, 20), BlockFrom(ram, 24))
  }

  predicate Decodes(ram: seq<Word>)
    requires |ram| == IMAGE_WORDS
  {
    ram[0] == MAGIC && ram[1] == VERSION && ram[2] & FLAGS == FLAGS && WellFormed(Decode(ram).l)
  }

  function PutHeader(ram: seq<Word>, h: Header): (r: seq<Word>)
    requires |ram| == IMAGE_WORDS
    ensures |r| == IMAGE_WORDS && Holds(r, h)
    ensures forall i :: KEY_BLOCK_WORDS <= i < IMAGE_WORDS ==> r[i] == ram[i]
  {
    seq(IMAGE_WORDS, i requires 0 <= i < IMAGE_WORDS => if i < KEY_BLOCK_WORDS then HeaderWord(h, i) else ram[i])
  }

  /** The image's first words are this header. */
  predicate Holds(ram: seq<Word>, h: Header) {
    |ram| == IMAGE_WORDS && forall i: nat :: i < KEY_BLOCK_WORDS ==> ram[i] == HeaderWord(h, i)
  }

  predicate Bounded(l: Layout) {
    l.textStart <= IMAGE_WORDS && l.textWords <= IMAGE_WORDS && l.textEnd <= IMAGE_WORDS
    && l.dataStart <= IMAGE_WORDS && l.dataWords <= IMAGE_WORDS && l.dataEnd <= IMAGE_WORDS
  }

  lemma BlockRoundTrip(ram: seq<Word>, i: nat, x: Block)
    requires i + 4 <= |ram| && forall k: nat :: k < 4 ==> ram[i + k] == x.At(k)
    ensures BlockFrom(ram, i) == x
  {
    assert ram[i + 0] == x.At(0) && ram[i + 1] == x.At(1) && ram[i + 2] == x.At(2) && ram[i + 3] == x.At(3);
  }

  lemma HeaderBlocks(ram: seq<Word>, h: Header)
    requires Holds(ram, h)
    ensures BlockFrom(ram, 8) == h.nonce && BlockFrom(ram, 12) == h.wrapped && BlockFrom(ram, 16) == h.keyTag
    ensures BlockFrom(ram, 20) == h.imgTag && BlockFrom(ram, 24) == h.meas
  {
    hide Block.At;
    hide BlockFrom;
    BlockRoundTrip(ram, 8, h.nonce);
    BlockRoundTrip(ram, 12, h.wrapped);
    BlockRoundTrip(ram, 16, h.keyTag);
    BlockRoundTrip(ram, 20, h.imgTag);
    BlockRoundTrip(ram, 24, h.meas);
  }

  lemma HeaderLayout(ram: seq<Word>, h: Header)
    requires Holds(ram, h) && Bounded(h.l)
    ensures ram[3] == h.l.policy && ram[7] == h.l.epoch && ram[31] == h.l.dataFlags
    ensures NatOf(ram[4]) == h.l.textStart && NatOf(ram[5]) == h.l.textWords && NatOf(ram[6]) == h.l.textEnd
    ensures NatOf(ram[28]) == h.l.dataStart && NatOf(ram[29]) == h.l.dataWords && NatOf(ram[30]) == h.l.dataEnd
    ensures ram[0] == MAGIC && ram[1] == VERSION && ram[2] == FLAGS
  {
    hide WordOf;
    hide NatOf;
    hide Block.At;
    StoredNumber(h.l.textStart);
    StoredNumber(h.l.textWords);
    StoredNumber(h.l.textEnd);
    StoredNumber(h.l.dataStart);
    StoredNumber(h.l.dataWords);
    StoredNumber(h.l.dataEnd);
  }

  /** A header that is written is read back, and accepted exactly if its layout is well formed. */
  lemma HeaderRoundTrip(ram: seq<Word>, h: Header)
    requires Holds(ram, h) && Bounded(h.l)
    ensures Decode(ram) == h && (Decodes(ram) <==> WellFormed(h.l))
  {
    hide NatOf;
    hide HeaderWord;
    hide BlockFrom;
    HeaderBlocks(ram, h);
    HeaderLayout(ram, h);
  }

  // ------------------------------------------------------------------ what is measured

  function Map(l: Layout): MapParams { BuildMapParams(l.textStart, l.textEnd, l.epoch) }

  /** Where the text word with logical address `a` is stored. */
  function Placed(l: Layout, a: nat): nat { 4 * MapBlock(a / 4, Map(l)) + a % 4 }

  lemma PlacedInImage(l: Layout, a: nat)
    requires l.textStart <= a < l.textEnd <= IMAGE_WORDS
    ensures Placed(l, a) < IMAGE_WORDS
    ensures l.textStart % 4 == 0 && l.textEnd % 4 == 0 ==> l.textStart <= Placed(l, a) < l.textEnd
  {
    hide BuildMapParams;
    hide MapBlock;
    MapPermutes(l.textStart, l.textEnd, l.epoch);
    MapRange(l.textStart, l.textEnd, l.epoch);
  }

  /** The stored text words in logical order. */
  function TextWords(ram: seq<Word>, l: Layout): (s: seq<Word>)
    requires |ram| == IMAGE_WORDS && l.textStart <= l.textEnd <= IMAGE_WORDS
    ensures |s| == l.textEnd - l.textStart
  {
    seq(l.textEnd - l.textStart, i requires 0 <= i < l.textEnd - l.textStart =>
      PlacedInImage(l, l.textStart + i);
      ram[Placed(l, l.textStart + i)])
  }

  function DataWords(ram: seq<Word>, l: Layout): seq<Word>
    requires |ram| == IMAGE_WORDS && l.dataStart <= l.dataEnd <= IMAGE_WORDS
  {
    ram[l.dataStart..l.dataEnd]
  }

  function Measured(x: Suite, ram: seq<Word>, l: Layout, nonce: Block): Block
    requires |ram| == IMAGE_WORDS && l.textStart <= l.textEnd <= IMAGE_WORDS
  {
    (x.measure)(l, nonce, TextWords(ram, l))
  }

  function ImageTag(x: Suite, ram: seq<Word>, h: Header, session: Block): Block
    requires |ram| == IMAGE_WORDS && h.l.textStart <= h.l.textEnd <= IMAGE_WORDS && h.l.dataStart <= h.l.dataEnd <= IMAGE_WORDS
  {
    (x.imgTag)(h.l, h.nonce, session, h.meas, TextWords(ram, h.l), DataWords(ram, h.l))
  }

  function Positions(h: Header): Option<seq<Position>> {
    GeneratePositions(h.nonce, h.l.textStart, h.l.textEnd, IMAGE_WORDS)
  }

  /** The places of the hidden bits, once found. */
  function Places(h: Header): (s: seq<Position>)
    requires Positions(h).Some?
    ensures |s| == KEY_BITS && InImage(s, IMAGE_WORDS) && Apart(s, IMAGE_WORDS, h.l.textStart, h.l.textEnd)
  {
    PositionsApart(h.nonce, h.l.textStart, h.l.textEnd, IMAGE_WORDS);
    Positions(h).value
  }

  /** Two images with the same text, as measured and tagged. */
  lemma SameText(ram: seq<Word>, other: seq<Word>, l: Layout)
    requires |ram| == |other| == IMAGE_WORDS && l.textStart <= l.textEnd <= IMAGE_WORDS
    requires l.textStart % 4 == 0 && l.textEnd % 4 == 0
    requires forall i :: l.textStart <= i < l.textEnd ==> other[i] == ram[i]
    ensures TextWords(other, l) == TextWords(ram, l)
  {
    hide Placed;
    forall i | 0 <= i < l.textEnd - l.textStart ensures TextWords(other, l)[i] == TextWords(ram, l)[i] {
      PlacedInImage(l, l.textStart + i);
    }
  }

  // ------------------------------------------------------------------------- sealing

  datatype Sealed = Sealed(rc: int, ram: seq<Word>)

  /** The header of a new image, still without tags. */
  function NewHeader(x: Suite, ram: seq<Word>, request: Layout, key: Block): (h: Header)
    requires |ram| == IMAGE_WORDS
    ensures h.l == Normalize(request)
  {
    var l := Normalize(request);
    var nonce := (x.nonce)(key, l);
    var meas := Measured(x, ram, l, nonce);
    Header(l, nonce, (x.cipher.enc)((x.session)(l, nonce, meas), key), ZERO, ZERO, meas)
  }

  /** The image with the wrapped key hidden in it. */
  function WithHidden(ram: seq<Word>, s: seq<Position>, wrapped: Block): (r: seq<Word>)
    requires |ram| == IMAGE_WORDS && |s| == KEY_BITS && InImage(s, IMAGE_WORDS)
    ensures |r| == IMAGE_WORDS
  {
    Hide(ram, s, wrapped, KEY_BITS)
  }

  function Tagged(x: Suite, ram: seq<Word>, h: Header, hidden: Block): Header
    requires |ram| == IMAGE_WORDS && h.l.textStart <= h.l.textEnd <= IMAGE_WORDS && h.l.dataStart <= h.l.dataEnd <= IMAGE_WORDS
  {
    var session := (x.session)(h.l, h.nonce, h.meas);
    h.(keyTag := (x.keyTag)(h.l, h.nonce, hidden, session, h.meas), imgTag := ImageTag(x, ram, h, session))
  }

  /** Wraps the key, hides it, and writes the header. Fails when no places for the hidden bits are found. */
  function Seal(x: Suite, ram: seq<Word>, request: Layout, key: Block): (r: Sealed)
    requires |ram| == IMAGE_WORDS
    ensures |r.ram| == IMAGE_WORDS
  {
    var h := NewHeader(x, ram, request, key);
    var base := PutHeader(ram, h);
    if Positions(h).None? then Sealed(-20, base)
    else
      var hidden := WithHidden(base, Places(h), h.wrapped);
      Sealed(0, PutHeader(hidden, Tagged(x, hidden, h, Extract(hidden, Places(h)))))
  }

  // ---------------------------------------------------------------- validating, opening

  /** The checks that validation and resealing share: 0, or the code of the first that fails. */
  function CheckKey(x: Suite, ram: seq<Word>): int
    requires |ram| == IMAGE_WORDS
  {
    if !Decodes(ram) then -1
    else
      var h := Decode(ram);
      if Positions(h).None? then -2
      else
        var hidden, meas := Extract(ram, Places(h)), Measured(x, ram, h.l, h.nonce);
        var session := (x.session)(h.l, h.nonce, meas);
        if hidden != h.wrapped then -3
        else if meas != h.meas then -4
        else if (x.keyTag)(h.l, h.nonce, hidden, session, meas) != h.keyTag then -5
        else 0
  }

  function Session(x: Suite, ram: seq<Word>, h: Header): Block
    requires |ram| == IMAGE_WORDS && h.l.textStart <= h.l.textEnd <= IMAGE_WORDS
  {
    (x.session)(h.l, h.nonce, Measured(x, ram, h.l, h.nonce))
  }

  function Validate(x: Suite, ram: seq<Word>): int
    requires |ram| == IMAGE_WORDS
  {
    var rc := CheckKey(x, ram);
    if rc != 0 then rc
    else
      var h := Decode(ram);
      if ImageTag(x, ram, h, Session(x, ram, h)) != h.imgTag then -6 else 0
  }

  /** Validates, then unwraps the key. */
  function Open(x: Suite, ram: seq<Word>): (r: (int, Block))
    requires |ram| == IMAGE_WORDS
  {
    var rc := Validate(x, ram);
    if rc != 0 then (rc, ZERO)
    else
      var h := Decode(ram);
      (0, (x.cipher.dec)(Session(x, ram, h), h.wrapped))
  }

  /** Puts a new tag over the current contents into the header, if the policy asks for it. */
  function Reseal(x: Suite, ram: seq<Word>): (r: Sealed)
    requires |ram| == IMAGE_WORDS
    ensures |r.ram| == IMAGE_WORDS
  {
    if !Decodes(ram) then Sealed(-1, ram)
    else if Decode(ram).l.policy & RESEAL_READY == 0 then Sealed(0, ram)
    else if CheckKey(x, ram) != 0 then Sealed(CheckKey(x, ram), ram)
    else
      var h := Decode(ram);
      Sealed(0, PutTag(ram, ImageTag(x, ram, h, Session(x, ram, h))))
  }

  function PutTag(ram: seq<Word>, tag: Block): (r: seq<Word>)
    requires |ram| == IMAGE_WORDS
    ensures |r| == IMAGE_WORDS
    ensures forall i :: 0 <= i < IMAGE_WORDS ==> r[i] == if 20 <= i < 24 then tag.At(i - 20) else ram[i]
  {
    ram[20 := tag.w0][21 := tag.w1][22 := tag.w2][23 := tag.w3]
  }

  // -------------------------------------------------------------------- the life cycle

  /** A well-formed image in which header, hidden key, measurement and key tag fit together. */
  ghost predicate Intact(x: Suite, ram: seq<Word>, h: Header, key: Block) {
    && Holds(ram, h) && WellFormed(h.l) && Positions(h).Some?
    && HiddenOk(ram, h)
    && h.meas == Measured(x, ram, h.l, h.nonce)
    && h.keyTag == (x.keyTag)(h.l, h.nonce, h.wrapped, (x.session)(h.l, h.nonce, h.meas), h.meas)
    && h.wrapped == (x.cipher.enc)((x.session)(h.l, h.nonce, h.meas), key)
  }

  predicate HiddenOk(ram: seq<Word>, h: Header)
    requires |ram| == IMAGE_WORDS && Positions(h).Some?
  {
    Extract(ram, Places(h)) == h.wrapped
  }

  lemma IntactShape(x: Suite, ram: seq<Word>, h: Header, key: Block)
    requires Intact(x, ram, h, key)
    ensures |ram| == IMAGE_WORDS && WellFormed(h.l) && Positions(h).Some? && Holds(ram, h)
  {
    hide HeaderWord;
    hide HiddenOk;
    hide Positions;
    hide TextWords;
  }

  lemma IntactDecodes(x: Suite, ram: seq<Word>, h: Header, key: Block)
    requires Intact(x, ram, h, key)
    ensures Decodes(ram) && Decode(ram) == h && CheckKey(x, ram) == 0
  {
    hide Decode;
    hide Decodes;
    hide Extract;
    hide GeneratePositions;
    hide TextWords;
    hide Holds;
    HeaderRoundTrip(ram, h);
  }

  /** An intact image passes validation exactly if its image tag covers its contents, and then opens to its key. */
  lemma IntactOpens(x: Suite, ram: seq<Word>, h: Header, key: Block)
    requires Intact(x, ram, h, key) && x.cipher.Inverts()
    ensures Validate(x, ram) == if h.imgTag == ImageTag(x, ram, h, (x.session)(h.l, h.nonce, h.meas)) then 0 else -6
    ensures Validate(x, ram) == 0 ==> Open(x, ram) == (0, key)
  {
    hide Decode;
    hide Decodes;
    hide CheckKey;
    hide TextWords;
    hide DataWords;
    hide Holds;
    hide HiddenOk;
    hide Positions;
    IntactDecodes(x, ram, h, key);
  }

  /** Two images that agree on header, text and hidden bits. */
  ghost predicate AgreeOn(ram: seq<Word>, other: seq<Word>, h: Header)
    requires |ram| == |other| == IMAGE_WORDS
  {
    && (forall i :: 0 <= i < IMAGE_WORDS && h.l.textStart <= i < h.l.textEnd ==> other[i] == ram[i])
    && (Positions(h).Some? ==> forall p :: p in Places(h) ==> other[p.word] == ram[p.word])
  }

  lemma HiddenStays(ram: seq<Word>, other: seq<Word>, h: Header)
    requires |ram| == |other| == IMAGE_WORDS && Positions(h).Some? && AgreeOn(ram, other, h)
    ensures Extract(other, Places(h)) == Extract(ram, Places(h))
  {
    hide Extract;
    hide Places;
    hide Positions;
    ExtractDependsOn(ram, other, Places(h));
  }

  /** What the sealed image has in common with the image before. */
  lemma SealKeeps(x: Suite, ram: seq<Word>, request: Layout, key: Block)
    requires |ram| == IMAGE_WORDS && Seal(x, ram, request, key).rc == 0
    ensures var r, h := Seal(x, ram, request, key).ram, NewHeader(x, ram, request, key);
      && Positions(h).Some?
      && forall i :: KEY_BLOCK_WORDS <= i < IMAGE_WORDS && (forall p :: p in Places(h) ==> p.word != i) ==> r[i] == ram[i]
  {
    hide NewHeader;
    hide Tagged;
    hide Extract;
    hide Hide;
    hide HeaderWord;
    hide Positions;
    hide Places;
    var h := NewHeader(x, ram, request, key);
    var base, s := PutHeader(ram, h), Places(h);
    forall i | KEY_BLOCK_WORDS <= i < IMAGE_WORDS && (forall p :: p in s ==> p.word != i)
      ensures Seal(x, ram, request, key).ram[i] == ram[i]
    {
      HideElsewhere(base, s, h.wrapped, KEY_BITS, i);
    }
  }

  /** Text survives sealing; so does every word below the window of hidden bits. */
  lemma SealKeepsText(x: Suite, ram: seq<Word>, request: Layout, key: Block)
    requires |ram| == IMAGE_WORDS && Seal(x, ram, request, key).rc == 0
    ensures var r, l := Seal(x, ram, request, key).ram, Normalize(request);
      forall i :: KEY_BLOCK_WORDS <= i < IMAGE_WORDS && (l.textStart <= i < l.textEnd || i < 512) ==> r[i] == ram[i]
  {
    hide Seal;
    hide Positions;
    hide Places;
    hide NewHeader;
    SealKeeps(x, ram, request, key);
  }

  /** The header of the sealed image. */
  function SealedHeader(x: Suite, ram: seq<Word>, request: Layout, key: Block): Header
    requires |ram| == IMAGE_WORDS
  {
    var h := NewHeader(x, ram, request, key);
    if Positions(h).None? then h
    else
      var hidden := WithHidden(PutHeader(ram, h), Places(h), h.wrapped);
      Tagged(x, hidden, h, Extract(hidden, Places(h)))
  }

  lemma SealedHolds(x: Suite, ram: seq<Word>, request: Layout, key: Block)
    requires |ram| == IMAGE_WORDS && Seal(x, ram, request, key).rc == 0
    ensures var r, h, n := Seal(x, ram, request, key).ram, SealedHeader(x, ram, request, key), NewHeader(x, ram, request, key);
      && Holds(r, h) && h.l == Normalize(request) && h.nonce == n.nonce && h.wrapped == n.wrapped && h.meas == n.meas
      && Positions(h) == Positions(n) && Positions(h).Some? && Places(h) == Places(n)
  {
    hide NewHeader;
    hide Hide;
    hide Extract;
    hide HeaderWord;
    hide ImageTag;
    hide GeneratePositions;
    hide PutHeader;
    hide Holds;
  }

  /** The image between hiding the key and writing the tags. */
  function HiddenImage(x: Suite, ram: seq<Word>, request: Layout, key: Block): (r: seq<Word>)
    requires |ram| == IMAGE_WORDS && Positions(NewHeader(x, ram, request, key)).Some?
    ensures |r| == IMAGE_WORDS
  {
    var h := NewHeader(x, ram, request, key);
    WithHidden(PutHeader(ram, h), Places(h), h.wrapped)
  }

  /** The hidden key is read back, before and after the tags are written. */
  lemma SealedHidden(x: Suite, ram: seq<Word>, request: Layout, key: Block)
    requires |ram| == IMAGE_WORDS && Seal(x, ram, request, key).rc == 0
    ensures var r, h := Seal(x, ram, request, key).ram, NewHeader(x, ram, request, key);
      && Positions(h).Some? && HiddenOk(r, h)
      && Extract(HiddenImage(x, ram, request, key), Places(h)) == h.wrapped
      && forall i :: KEY_BLOCK_WORDS <= i < IMAGE_WORDS ==> r[i] == HiddenImage(x, ram, request, key)[i]
  {
    hide NewHeader;
    hide Tagged;
    hide Extract;
    hide Hide;
    hide HeaderWord;
    hide Positions;
    hide Places;
    var h, r := NewHeader(x, ram, request, key), Seal(x, ram, request, key).ram;
    var base, s := PutHeader(ram, h), Places(h);
    HiddenKeyRoundTrip(base, s, h.wrapped);
    ExtractDependsOn(Hide(base, s, h.wrapped, KEY_BITS), r, s);
  }

  /** The three images agree on what is measured and tagged. */
  lemma SealedContents(x: Suite, ram: seq<Word>, request: Layout, key: Block)
    requires |ram| == IMAGE_WORDS && Seal(x, ram, request, key).rc == 0
    requires var l := Normalize(request); l.textStart % 4 == 0 && l.textEnd % 4 == 0
    requires Positions(NewHeader(x, ram, request, key)).Some?
    ensures var r, l, hidden := Seal(x, ram, request, key).ram, Normalize(request), HiddenImage(x, ram, request, key);
      TextWords(r, l) == TextWords(ram, l) == TextWords(hidden, l) && DataWords(hidden, l) == DataWords(r, l)
  {
    hide Seal;
    hide NewHeader;
    hide Positions;
    hide TextWords;
    hide HiddenImage;
    hide Normalize;
    hide Places;
    hide HiddenOk;
    hide Extract;
    var r, l, hidden := Seal(x, ram, request, key).ram, Normalize(request), HiddenImage(x, ram, request, key);
    SealKeepsText(x, ram, request, key);
    SealedHidden(x, ram, request, key);
    SameText(ram, r, l);
    SameText(hidden, r, l);
  }

  lemma SealedTags(x: Suite, ram: seq<Word>, request: Layout, key: Block)
    requires |ram| == IMAGE_WORDS && Positions(NewHeader(x, ram, request, key)).Some?
    ensures var h, n, hidden := SealedHeader(x, ram, request, key), NewHeader(x, ram, request, key), HiddenImage(x, ram, request, key);
      var session := (x.session)(n.l, n.nonce, n.meas);
      && h.l == n.l && h.nonce == n.nonce && h.meas == n.meas && h.wrapped == n.wrapped
      && h.keyTag == (x.keyTag)(n.l, n.nonce, Extract(hidden, Places(n)), session, n.meas)
      && h.imgTag == (x.imgTag)(n.l, n.nonce, session, n.meas, TextWords(hidden, n.l), DataWords(hidden, n.l))
      && n.l == Normalize(request) && n.meas == (x.measure)(n.l, n.nonce, TextWords(ram, n.l))
      && n.wrapped == (x.cipher.enc)(session, key)
  {
    hide Positions;
    hide Places;
    hide TextWords;
    hide DataWords;
    hide WithHidden;
    hide PutHeader;
    hide Extract;
    hide Normalize;
  }

  /** A sealed image whose text region is block aligned is intact, and its tag covers its contents. */
  lemma SealedIsIntact(x: Suite, ram: seq<Word>, request: Layout, key: Block)
    requires |ram| == IMAGE_WORDS && Seal(x, ram, request, key).rc == 0
    requires var l := Normalize(request); l.textStart % 4 == 0 && l.textEnd % 4 == 0
    ensures var r, h := Seal(x, ram, request, key).ram, SealedHeader(x, ram, request, key);
      && Intact(x, r, h, key) && h.imgTag == ImageTag(x, r, h, (x.session)(h.l, h.nonce, h.meas))
  {
    hide Seal;
    hide NewHeader;
    hide SealedHeader;
    hide HiddenImage;
    hide Positions;
    hide Places;
    hide Holds;
    hide TextWords;
    hide DataWords;
    hide Extract;
    SealedHolds(x, ram, request, key);
    SealedHidden(x, ram, request, key);
    SealedContents(x, ram, request, key);
    SealedTags(x, ram, request, key);
    hide Normalize;
  }

  lemma UnalignedIsRejected(x: Suite, ram: seq<Word>, request: Layout, key: Block)
    requires |ram| == IMAGE_WORDS && Seal(x, ram, request, key).rc == 0
    requires var l := Normalize(request); l.textStart % 4 != 0 || l.textEnd % 4 != 0
    ensures Validate(x, Seal(x, ram, request, key).ram) == -1
  {
    hide Seal;
    hide SealedHeader;
    hide NewHeader;
    hide Positions;
    hide Places;
    hide Decodes;
    hide Holds;
    SealedHolds(x, ram, request, key);
    HeaderRoundTrip(Seal(x, ram, request, key).ram, SealedHeader(x, ram, request, key));
  }

  /**
   * Sealing succeeds with an image that validates exactly if the text region, as
   * corrected, is block aligned; and then opening it gives back the key.
   */
  lemma SealThenOpen(x: Suite, ram: seq<Word>, request: Layout, key: Block)
    requires |ram| == IMAGE_WORDS && x.cipher.Inverts() && Seal(x, ram, request, key).rc == 0
    ensures var r, l := Seal(x, ram, request, key).ram, Normalize(request);
      && (Validate(x, r) == 0 <==> l.textStart % 4 == 0 && l.textEnd % 4 == 0)
      && (Validate(x, r) == 0 ==> Open(x, r) == (0, key))
  {
    hide Seal;
    hide SealedHeader;
    hide Validate;
    hide Open;
    hide Intact;
    hide ImageTag;
    var r, l := Seal(x, ram, request, key).ram, Normalize(request);
    if l.textStart % 4 == 0 && l.textEnd % 4 == 0 {
      SealedIsIntact(x, ram, request, key);
      IntactOpens(x, r, SealedHeader(x, ram, request, key), key);
    } else {
      UnalignedIsRejected(x, ram, request, key);
    }
  }

  // ----------------------------------------------------------------------- resealing

  /** Only words of the data region differ. */
  ghost predicate SameButData(ram: seq<Word>, other: seq<Word>, l: Layout) {
    && |ram| == |other| == IMAGE_WORDS
    && forall i :: 0 <= i < IMAGE_WORDS && !(l.dataStart <= i < l.dataEnd) ==> other[i] == ram[i]
  }

  /** No hidden bit lies in the data region. */
  ghost predicate HiddenClear(h: Header)
    requires Positions(h).Some?
  {
    forall p :: p in Places(h) ==> !(h.l.dataStart <= p.word < h.l.dataEnd)
  }

  /** A data region that ends at or below word 512 is clear of hidden bits. */
  lemma LowDataIsClear(h: Header)
    requires Positions(h).Some? && h.l.dataEnd <= 512
    ensures HiddenClear(h)
  {
    hide Positions;
    hide Places;
  }

  /** A data region over the whole window of hidden bits is never clear of them: every one lies in it. */
  lemma WideDataIsNeverClear(h: Header)
    requires Positions(h).Some? && h.l.dataStart <= 512 && h.l.dataEnd == IMAGE_WORDS
    ensures forall p :: p in Places(h) ==> h.l.dataStart <= p.word < h.l.dataEnd
    ensures !HiddenClear(h)
  {
    hide Positions;
    hide Places;
    assert Places(h)[0] in Places(h);
  }

  lemma IntactAfterRun(x: Suite, ram: seq<Word>, other: seq<Word>, h: Header, key: Block)
    requires Intact(x, ram, h, key) && SameButData(ram, other, h.l) && HiddenClear(h)
    ensures Intact(x, other, h, key)
  {
    hide Extract;
    hide Positions;
    hide Places;
    hide TextWords;
    hide HeaderWord;
    SameText(ram, other, h.l);
    assert forall p :: p in Places(h) ==> 0 <= p.word < IMAGE_WORDS;
    HiddenStays(ram, other, h);
  }

  lemma TagChanges(ram: seq<Word>, h: Header, tag: Block)
    requires Holds(ram, h)
    ensures Holds(PutTag(ram, tag), h.(imgTag := tag))
  {
    hide WordOf;
    hide Block.At;
    hide PutTag;
  }

  /** A new tag leaves everything else of an intact image intact. */
  lemma IntactAfterTag(x: Suite, ram: seq<Word>, h: Header, key: Block, tag: Block)
    requires Intact(x, ram, h, key)
    ensures Intact(x, PutTag(ram, tag), h.(imgTag := tag), key)
    ensures TextWords(PutTag(ram, tag), h.l) == TextWords(ram, h.l) && DataWords(PutTag(ram, tag), h.l) == DataWords(ram, h.l)
  {
    hide Extract;
    hide GeneratePositions;
    hide PutTag;
    hide Holds;
    hide TextWords;
    IntactShape(x, ram, h, key);
    TagChanges(ram, h, tag);
    var t := PutTag(ram, tag);
    SameText(ram, t, h.l);
    HiddenStays(ram, t, h);
  }

  /** Resealing an intact image always succeeds, and the result validates and opens to the same key. */
  lemma ResealRestores(x: Suite, ram: seq<Word>, h: Header, key: Block)
    requires Intact(x, ram, h, key) && x.cipher.Inverts() && h.l.policy & RESEAL_READY != 0
    ensures var r := Reseal(x, ram);
      && r.rc == 0 && Validate(x, r.ram) == 0 && Open(x, r.ram) == (0, key)
      && forall i :: 0 <= i < IMAGE_WORDS && !(20 <= i < 24) ==> r.ram[i] == ram[i]
  {
    hide Decode;
    hide Decodes;
    hide CheckKey;
    hide Validate;
    hide Open;
    hide PutTag;
    hide TextWords;
    hide DataWords;
    hide Holds;
    hide HiddenOk;
    hide Positions;
    IntactShape(x, ram, h, key);
    IntactDecodes(x, ram, h, key);
    var tag := ImageTag(x, ram, h, Session(x, ram, h));
    IntactAfterTag(x, ram, h, key, tag);
    IntactOpens(x, PutTag(ram, tag), h.(imgTag := tag), key);
  }

  lemma FlippedIsRejected(x: Suite, ram: seq<Word>, h: Header, key: Block, i: nat)
    requires Intact(x, ram, h, key) && i < KEY_BITS && h.l.policy & RESEAL_READY != 0
    ensures Reseal(x, FlipAt(ram, Places(h)[i])).rc == -3
  {
    hide Extract;
    hide Positions;
    hide Places;
    hide FlipAt;
    hide Decode;
    hide Decodes;
    hide TextWords;
    var r := FlipAt(ram, Places(h)[i]);
    FlippedIsSeen(ram, Places(h), i);
    FlipKeepsHeader(ram, h, Places(h)[i]);
    HeaderRoundTrip(r, h);
    hide Holds;
  }

  lemma FlipKeepsHeader(ram: seq<Word>, h: Header, p: Position)
    requires Holds(ram, h) && KEY_BLOCK_WORDS <= p.word < IMAGE_WORDS
    ensures Holds(FlipAt(ram, p), h)
  {
    hide HeaderWord;
    hide SetBit;
    hide Shown;
  }

  /**
   * Which data regions can be resealed after a run: resealing succeeds after every
   * change of data words exactly if no hidden bit lies in the data region.
   */
  lemma ResealableExactly(x: Suite, ram: seq<Word>, h: Header, key: Block)
    requires Intact(x, ram, h, key) && x.cipher.Inverts() && h.l.policy & RESEAL_READY != 0
    ensures HiddenClear(h) <==> forall other :: SameButData(ram, other, h.l) ==> Reseal(x, other).rc == 0
  {
    hide Reseal;
    hide Positions;
    hide Places;
    hide FlipAt;
    hide Intact;
    hide Holds;
    IntactShape(x, ram, h, key);
    if HiddenClear(h) {
      forall other | SameButData(ram, other, h.l) ensures Reseal(x, other).rc == 0 {
        IntactAfterRun(x, ram, other, h, key);
        ResealRestores(x, other, h, key);
      }
    } else {
      var i := ClashIndex(h);
      FlippedIsRejected(x, ram, h, key, i);
      FlipsOnlyData(ram, h, Places(h)[i]);
      assert SameButData(ram, FlipAt(ram, Places(h)[i]), h.l);
    }
  }

  /** A hidden bit in the data region. */
  lemma ClashIndex(h: Header) returns (i: nat)
    requires Positions(h).Some? && !HiddenClear(h)
    ensures i < KEY_BITS && h.l.dataStart <= Places(h)[i].word < h.l.dataEnd
  {
    hide Positions;
    hide Places;
    var p :| p in Places(h) && h.l.dataStart <= p.word < h.l.dataEnd;
    i :| 0 <= i < |Places(h)| && Places(h)[i] == p;
  }

  lemma FlipsOnlyData(ram: seq<Word>, h: Header, p: Position)
    requires |ram| == IMAGE_WORDS && h.l.dataStart <= p.word < h.l.dataEnd <= IMAGE_WORDS
    ensures SameButData(ram, FlipAt(ram, p), h.l)
  {
    hide SetBit;
    hide Shown;
  }

  /** So an image with such a data region, however well it was sealed, has a run of stores after which it cannot be resealed. */
  lemma WideDataBreaksReseal(x: Suite, ram: seq<Word>, h: Header, key: Block)
    requires Intact(x, ram, h, key) && x.cipher.Inverts() && h.l.policy & RESEAL_READY != 0
    requires h.l.dataStart <= 512 && h.l.dataEnd == IMAGE_WORDS
    ensures exists other :: SameButData(ram, other, h.l) && Reseal(x, other).rc != 0
  {
    hide Reseal;
    hide Positions;
    hide Places;
    hide Intact;
    hide Holds;
    hide HiddenClear;
    IntactShape(x, ram, h, key);
    WideDataIsNeverClear(h);
    ResealableExactly(x, ram, h, key);
  }
}
