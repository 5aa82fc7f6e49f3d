/**
 * The life of an image from end to end: encrypt, seal, run on the pipeline,
 * reseal, and open again.
 */
module LifeCycle {
  import opened Words
  import opened BlockMap
  import opened Regions
  import opened HiddenKey
  import opened SealedImage
  import I = Isa
  import P = Pipeline
  import Proof = PipelineProof
  import Results = PipelineResults

  /** What the CPU takes from a validated header. */
  function ConfigOf(x: Suite, h: Header, key: Block): I.Config {
    I.Config(x.cipher, key, h.l.textStart, h.l.textEnd, h.l.dataStart, h.l.dataEnd, h.l.dataFlags & 1 != 0)
  }

  function PlatformOf(x: Suite, h: Header, key: Block, boots: bool): P.Platform {
    P.Platform(ConfigOf(x, h, key), b => MapBlock(b, Map(h.l)), boots)
  }

  lemma PlatformIsValid(x: Suite, h: Header, key: Block, boots: bool)
    requires WellFormed(h.l)
    ensures PlatformOf(x, h, key, boots).Valid() && ConfigOf(x, h, key).Valid()
  {
    hide MapBlock;
    hide Map;
    MapIsClosedFor(h.l);
  }

  lemma MapIsClosedFor(l: Layout)
    requires WellFormed(l)
    ensures Closed(Map(l), l.textStart / 4, l.textEnd / 4)
  {
    hide BuildMapParams;
    hide MapBlock;
    MapIsClosed(l.textStart, l.textEnd, l.epoch);
  }

  // ------------------------------------------------- a run changes only data words

  ghost predicate OutsideSame(c: I.Config, ram: seq<Word>, other: seq<Word>) {
    |ram| == |other| == I.MEM_WORDS && forall i :: 0 <= i < I.MEM_WORDS && !c.IsData(i) ==> other[i] == ram[i]
  }

  lemma StoreKeepsOutside(p: P.Platform, s: P.Machine, a: nat)
    requires p.Valid() && s.Shaped() && a < I.MEM_WORDS
    ensures OutsideSame(p.c, s.ram, P.StoreStage(p, s, a).ram)
  {
    hide P.CachedRead;
    hide P.FillLine;
    hide P.DropBlock;
    hide BlockAt;
    hide PutBlock;
    assert p.c.IsData(a) ==> forall i :: 4 * (a / 4) <= i < 4 * (a / 4) + 4 ==> p.c.IsData(i);
  }

  lemma LoadKeepsMemory(p: P.Platform, s: P.Machine, a: nat)
    requires s.Shaped() && a < I.MEM_WORDS
    ensures P.LoadStage(p, s, a).ram == s.ram
  {
    hide P.ReadEncrypted;
    hide P.CachedRead;
    hide P.FillLine;
  }

  lemma MemoryKeepsOutside(p: P.Platform, s: P.Machine)
    requires p.Valid() && s.Shaped()
    ensures OutsideSame(p.c, s.ram, P.Memory(p, s).ram)
  {
    hide P.LoadStage;
    hide P.StoreStage;
    hide I.Opcode;
    match p.c.Translate(s.exec.alu as nat)
    case None =>
    case Some(a) =>
      StoreKeepsOutside(p, s, a);
      LoadKeepsMemory(p, s, a);
  }

  lemma CycleKeepsOutside(p: P.Platform, s: P.Machine)
    requires p.Valid() && s.Shaped()
    ensures OutsideSame(p.c, s.ram, P.Cycle(p, s).ram)
  {
    BackendKeepsOutside(p, s);
    hide P.Backend;
    hide P.Frontend;
  }

  lemma BackendKeepsOutside(p: P.Platform, s: P.Machine)
    requires p.Valid() && s.Shaped()
    ensures OutsideSame(p.c, s.ram, P.Backend(p, s).ram)
  {
    var s0 := s.(wb := s.wb.(valid := false));
    var s1 := if s0.mem.valid then P.Writeback(s0) else s0;
    if s1.exec.valid { MemoryKeepsOutside(p, P.Recover(s1)); }
    hide P.Memory;
    hide I.Execute;
    hide P.Forward;
    hide I.WriteReg;
    hide I.IsLoad;
    hide I.IsWrite;
  }

  lemma {:induction false} CyclesKeepOutside(p: P.Platform, s: P.Machine, n: nat)
    requires p.Valid() && s.Shaped()
    ensures OutsideSame(p.c, s.ram, P.Cycles(p, s, n).ram)
  {
    hide P.Cycle;
    if n > 0 {
      CyclesKeepOutside(p, s, n - 1);
      CycleKeepsOutside(p, P.Cycles(p, s, n - 1));
    }
  }

  // ---------------------------------------------------------------------- making an image

  /** What the encryptor has in memory before sealing. */
  ghost predicate Prepared(x: Suite, l: Layout, key: Block, plain: seq<Word>, mid: seq<Word>, ram: seq<Word>) {
    && |plain| == IMAGE_WORDS && WellFormed(l)
    && Encrypted(x.cipher, key, Map(l), l.textStart / 4, l.textEnd / 4, plain, mid)
    && Encrypted(x.cipher, key, IN_PLACE, l.dataStart / 4, l.dataEnd / 4, mid, ram)
  }

  function TextOf(plain: seq<Word>, l: Layout): seq<Word>
    requires |plain| == IMAGE_WORDS && WellFormed(l)
  {
    plain[l.textStart..l.textEnd]
  }

  lemma TextIsLoaded(x: Suite, h: Header, key: Block, boots: bool, plain: seq<Word>, mid: seq<Word>, ram: seq<Word>, b: nat)
    requires x.cipher.Inverts() && Prepared(x, h.l, key, plain, mid, ram) && h.l.textStart / 4 <= b < h.l.textEnd / 4
    ensures PlatformOf(x, h, key, boots).c.Valid() && h.l.textStart / 4 <= MapBlock(b, Map(h.l)) < h.l.textEnd / 4
    ensures (x.cipher.dec)(key, BlockAt(ram, MapBlock(b, Map(h.l)))) ==
              Proof.TextBlock(ConfigOf(x, h, key), TextOf(plain, h.l), b)
  {
    hide MapBlock;
    hide Map;
    RecoversBlock(x.cipher, key, Map(h.l), h.l.textStart / 4, h.l.textEnd / 4, plain, mid, b);
    var q := MapBlock(b, Map(h.l));
    assert BlockAt(ram, q) == BlockAt(mid, q);
    assert BlockAt(plain, b) == BlockAt(TextOf(plain, h.l), b - h.l.textStart / 4);
  }

  lemma DataIsStored(x: Suite, h: Header, key: Block, plain: seq<Word>, mid: seq<Word>, ram: seq<Word>, a: nat)
    requires x.cipher.Inverts() && Prepared(x, h.l, key, plain, mid, ram) && h.l.dataStart <= a < h.l.dataEnd
    ensures |ram| == IMAGE_WORDS && P.ReadEncrypted(ConfigOf(x, h, key), ram, a) == plain[a]
  {
    RecoversBlock(x.cipher, key, IN_PLACE, h.l.dataStart / 4, h.l.dataEnd / 4, mid, ram, a / 4);
    WordOfBlock(mid, a);
    hide BlockAt;
    hide Block.At;
    assert mid[a] == plain[a];
  }

  /** The sealed image holds the program and its data, encrypted, where the CPU looks for them. */
  ghost predicate Carries(x: Suite, h: Header, key: Block, plain: seq<Word>, ram: seq<Word>) {
    && |plain| == |ram| == IMAGE_WORDS && WellFormed(h.l)
    && PlatformOf(x, h, key, true).Valid()
    && Proof.Loaded(PlatformOf(x, h, key, true), ram, TextOf(plain, h.l))
    && Proof.PlainData(ConfigOf(x, h, key), ram) == plain[h.l.dataStart..h.l.dataEnd]
  }

  lemma TextCarried(x: Suite, h: Header, key: Block, plain: seq<Word>, mid: seq<Word>, ram: seq<Word>)
    requires x.cipher.Inverts() && Prepared(x, h.l, key, plain, mid, ram)
    ensures PlatformOf(x, h, key, true).Valid() && |ram| == IMAGE_WORDS
    ensures Proof.Loaded(PlatformOf(x, h, key, true), ram, TextOf(plain, h.l))
  {
    PlatformIsValid(x, h, key, true);
    var p, c := PlatformOf(x, h, key, true), ConfigOf(x, h, key);
    forall b | p.FirstBlock() <= b < p.EndBlock()
      ensures (c.cipher.dec)(c.key, BlockAt(ram, p.place(b))) == Proof.TextBlock(c, TextOf(plain, h.l), b)
    {
      TextIsLoaded(x, h, key, true, plain, mid, ram, b);
    }
    hide MapBlock;
    hide Map;
    hide BlockAt;
    hide Encrypted;
  }

  lemma DataCarried(x: Suite, h: Header, key: Block, plain: seq<Word>, mid: seq<Word>, ram: seq<Word>)
    requires x.cipher.Inverts() && Prepared(x, h.l, key, plain, mid, ram) && h.l.dataFlags & 1 != 0 && |ram| == IMAGE_WORDS
    requires ConfigOf(x, h, key).Valid()
    ensures Proof.PlainData(ConfigOf(x, h, key), ram) == plain[h.l.dataStart..h.l.dataEnd]
  {
    hide Encrypted;
    hide Map;
    hide P.ReadEncrypted;
    var c := ConfigOf(x, h, key);
    var d := Proof.PlainData(c, ram);
    forall i | 0 <= i < h.l.dataEnd - h.l.dataStart ensures d[i] == plain[h.l.dataStart + i] {
      DataIsStored(x, h, key, plain, mid, ram, h.l.dataStart + i);
      assert d[i] == Proof.PlainWord(c, ram, c.dataStart + i) == P.ReadEncrypted(c, ram, c.dataStart + i);
    }
  }

  lemma PreparedCarries(x: Suite, h: Header, key: Block, plain: seq<Word>, mid: seq<Word>, ram: seq<Word>)
    requires x.cipher.Inverts() && Prepared(x, h.l, key, plain, mid, ram) && h.l.dataFlags & 1 != 0
    ensures Carries(x, h, key, plain, ram)
  {
    hide Map;
    hide Encrypted;
    hide Proof.Loaded;
    hide Proof.PlainData;
    TextCarried(x, h, key, plain, mid, ram);
    DataCarried(x, h, key, plain, mid, ram);
  }

  // ------------------------------------------------------------------------ the life cycle

  lemma CarriesSame(x: Suite, h: Header, key: Block, plain: seq<Word>, ram: seq<Word>, other: seq<Word>)
    requires Carries(x, h, key, plain, ram) && |other| == IMAGE_WORDS
    requires forall i :: h.l.textStart <= i < h.l.textEnd || h.l.dataStart <= i < h.l.dataEnd ==> other[i] == ram[i]
    ensures Carries(x, h, key, plain, other)
  {
    hide MapBlock;
    hide Map;
    var p, c := PlatformOf(x, h, key, true), ConfigOf(x, h, key);
    forall b | p.FirstBlock() <= b < p.EndBlock() ensures BlockAt(other, p.place(b)) == BlockAt(ram, p.place(b)) {}
    forall a | h.l.dataStart <= a < h.l.dataEnd ensures Proof.PlainWord(c, other, a) == Proof.PlainWord(c, ram, a) {
      assert BlockAt(other, a / 4) == BlockAt(ram, a / 4);
    }
    hide Proof.PlainWord;
    hide BlockAt;
    assert Proof.PlainData(c, other) == Proof.PlainData(c, ram);
  }

  /** Sealing leaves program and data where they were, if no hidden bit falls on the data. */
  lemma SealCarries(x: Suite, request: Layout, key: Block, plain: seq<Word>, ram: seq<Word>)
    requires |ram| == IMAGE_WORDS && Seal(x, ram, request, key).rc == 0 && WellFormed(Normalize(request))
    requires Carries(x, SealedHeader(x, ram, request, key), key, plain, ram)
    requires Positions(SealedHeader(x, ram, request, key)).Some? && HiddenClear(SealedHeader(x, ram, request, key))
    ensures Carries(x, SealedHeader(x, ram, request, key), key, plain, Seal(x, ram, request, key).ram)
  {
    hide Seal;
    hide SealedHeader;
    hide NewHeader;
    hide Positions;
    hide Places;
    hide Carries;
    hide Normalize;
    hide Holds;
    var r, h := Seal(x, ram, request, key).ram, SealedHeader(x, ram, request, key);
    SealedHolds(x, ram, request, key);
    SealKeeps(x, ram, request, key);
    CarriesSame(x, h, key, plain, ram, r);
  }

  /** The CPU over the image in its memory: it boots exactly if the image opens. */
  function Powered(x: Suite, h: Header, key: Block, ram: seq<Word>): P.Platform
    requires |ram| == IMAGE_WORDS
  {
    PlatformOf(x, h, key, Open(x, ram).0 == 0)
  }

  /** A CPU after `n` cycles from `s`. */
  function Ran(x: Suite, h: Header, key: Block, s: P.Machine, n: nat): (t: P.Machine)
    requires s.Shaped()
    ensures t.Shaped()
  {
    P.Cycles(Powered(x, h, key, s.ram), s, n)
  }

  /** The instructions that have passed the memory stage by then. */
  function Completed(x: Suite, h: Header, key: Block, s: P.Machine, n: nat): nat
    requires s.Shaped()
  {
    Results.Stored(Powered(x, h, key, s.ram), s, n)
  }

  /**
   * An image that does not open never runs: the security lock is latched with the
   * mark that the key has failed, and nothing else changes.
   */
  lemma UnopenedImageStays(x: Suite, h: Header, key: Block, s: P.Machine, n: nat)
    requires Proof.Reset(s) && s.Shaped() && Open(x, s.ram).0 != 0 && n > 0
    ensures Ran(x, h, key, s, n) == s.(wb := s.wb.(valid := false), keyFailed := true, locked := true)
    ensures Reseal(x, Ran(x, h, key, s, n).ram) == Reseal(x, s.ram)
  {
    hide Open;
    hide Reseal;
    hide Proof.Reset;
    hide P.Cycles;
    Results.RejectedImageRunsNothing(Powered(x, h, key, s.ram), s, n);
  }

  lemma AnyPlatformLoads(x: Suite, h: Header, key: Block, boots: bool, ram: seq<Word>, text: seq<Word>)
    requires |ram| == IMAGE_WORDS && WellFormed(h.l) && |text| == h.l.textEnd - h.l.textStart
    requires PlatformOf(x, h, key, true).Valid() && Proof.Loaded(PlatformOf(x, h, key, true), ram, text)
    ensures PlatformOf(x, h, key, boots).Valid() && Proof.Loaded(PlatformOf(x, h, key, boots), ram, text)
  {
    hide MapBlock;
    hide Map;
    hide BlockAt;
    PlatformIsValid(x, h, key, boots);
  }

  /** What running leaves, cut off at any cycle: the sequential machine's data, and everything else as it was. */
  lemma RunLeaves(x: Suite, h: Header, key: Block, plain: seq<Word>, s: P.Machine, n: nat)
    requires x.cipher.Inverts() && Proof.Reset(s) && s.Shaped() && Carries(x, h, key, plain, s.ram)
    requires !Ran(x, h, key, s, n).Faulted()
    ensures SameButData(s.ram, Ran(x, h, key, s, n).ram, h.l)
    ensures var c := ConfigOf(x, h, key);
      c.Valid() && Proof.PlainData(c, Ran(x, h, key, s, n).ram)
                   == I.Run(c, TextOf(plain, h.l), Proof.Boot(c, s.ram), Completed(x, h, key, s, n)).data
  {
    hide P.Cycle;
    hide Open;
    hide Proof.Loaded;
    hide Proof.PlainData;
    hide I.Step;
    hide Map;
    var c, p := ConfigOf(x, h, key), Powered(x, h, key, s.ram);
    PlatformIsValid(x, h, key, true);
    AnyPlatformLoads(x, h, key, p.boots, s.ram, TextOf(plain, h.l));
    CyclesKeepOutside(p, s, n);
    Results.MemoryIsIsa(p, TextOf(plain, h.l), s, n);
  }

  /** The sequential machine on the plaintext image, before its first instruction. */
  function Fresh(plain: seq<Word>, l: Layout): I.Arch
    requires |plain| == IMAGE_WORDS && WellFormed(l)
  {
    I.Arch(I.HEADER_WORDS, seq(32, _ => 0), ZERO, plain[l.dataStart..l.dataEnd])
  }

  /** The image carries the program, and as data those the program leaves after `k` instructions. */
  ghost predicate Ends(x: Suite, h: Header, key: Block, plain: seq<Word>, ram: seq<Word>, k: nat) {
    && |plain| == |ram| == IMAGE_WORDS && WellFormed(h.l)
    && PlatformOf(x, h, key, true).Valid() && ConfigOf(x, h, key).Valid()
    && Proof.Loaded(PlatformOf(x, h, key, true), ram, TextOf(plain, h.l))
    && Proof.PlainData(ConfigOf(x, h, key), ram) == I.Run(ConfigOf(x, h, key), TextOf(plain, h.l), Fresh(plain, h.l), k).data
  }

  lemma BootsFresh(x: Suite, h: Header, key: Block, plain: seq<Word>, ram: seq<Word>)
    requires Carries(x, h, key, plain, ram)
    ensures ConfigOf(x, h, key).Valid() && Proof.Boot(ConfigOf(x, h, key), ram) == Fresh(plain, h.l)
  {
    hide Proof.Loaded;
    hide Proof.PlainData;
    hide Map;
    PlatformIsValid(x, h, key, true);
  }

  lemma ResealedEnds(x: Suite, h: Header, key: Block, plain: seq<Word>, ram: seq<Word>, mid: seq<Word>, end: seq<Word>, k: nat)
    requires Carries(x, h, key, plain, ram) && SameButData(ram, mid, h.l) && |end| == IMAGE_WORDS
    requires forall i :: KEY_BLOCK_WORDS <= i < IMAGE_WORDS ==> end[i] == mid[i]
    requires ConfigOf(x, h, key).Valid()
    requires Proof.PlainData(ConfigOf(x, h, key), mid) == I.Run(ConfigOf(x, h, key), TextOf(plain, h.l), Proof.Boot(ConfigOf(x, h, key), ram), k).data
    ensures Ends(x, h, key, plain, end, k)
  {
    hide I.Run;
    hide MapBlock;
    hide Map;
    var p, c := PlatformOf(x, h, key, true), ConfigOf(x, h, key);
    BootsFresh(x, h, key, plain, ram);
    hide Proof.Boot;
    forall b | p.FirstBlock() <= b < p.EndBlock() ensures BlockAt(end, p.place(b)) == BlockAt(ram, p.place(b)) {}
    DataSame(c, mid, end);
    hide Proof.PlainData;
    hide BlockAt;
  }

  lemma DataSame(c: I.Config, ram: seq<Word>, other: seq<Word>)
    requires c.Valid() && |ram| == |other| == IMAGE_WORDS
    requires forall i :: KEY_BLOCK_WORDS <= i < IMAGE_WORDS ==> other[i] == ram[i]
    ensures Proof.PlainData(c, other) == Proof.PlainData(c, ram)
  {
    forall a | c.dataStart <= a < c.dataEnd ensures Proof.PlainWord(c, other, a) == Proof.PlainWord(c, ram, a) {
      assert BlockAt(other, a / 4) == BlockAt(ram, a / 4);
    }
    hide Proof.PlainWord;
    hide BlockAt;
    assert forall i :: 0 <= i < c.dataEnd - c.dataStart ==>
      Proof.PlainData(c, other)[i] == Proof.PlainWord(c, other, c.dataStart + i) == Proof.PlainData(c, ram)[i];
  }

  lemma PreparedShape(x: Suite, l: Layout, key: Block, plain: seq<Word>, mid: seq<Word>, ram: seq<Word>)
    requires Prepared(x, l, key, plain, mid, ram)
    ensures WellFormed(l) && |plain| == IMAGE_WORDS
  {
    hide Encrypted;
    hide Map;
  }

  /**
   * From end to end, for every program, data, key, epoch and number of cycles:
   * encrypt and seal an aligned image whose data no hidden bit falls on, run it
   * until it is cut off wherever it then is, and reseal. Unless an access locked the
   * run, the resealed image validates, opens to the same key, still carries the
   * program, and its decrypted data are those of the sequential machine, started on
   * the plaintext, after the instructions that have passed the memory stage.
   */
  lemma SealRunReseal(x: Suite, request: Layout, key: Block, plain: seq<Word>, mid: seq<Word>, ram: seq<Word>, s: P.Machine, n: nat)
    requires x.cipher.Inverts() && Prepared(x, Normalize(request), key, plain, mid, ram)
    requires |ram| == IMAGE_WORDS && Seal(x, ram, request, key).rc == 0
    requires request.dataFlags & 1 != 0 && request.policy & RESEAL_READY != 0
    requires var h := SealedHeader(x, ram, request, key); Positions(h).Some? && HiddenClear(h)
    requires Proof.Reset(s) && s.Shaped() && s.ram == Seal(x, ram, request, key).ram
    requires var h := SealedHeader(x, ram, request, key); !Ran(x, h, key, s, n).Faulted()
    ensures Validate(x, s.ram) == 0 && Open(x, s.ram) == (0, key)
    ensures var h := SealedHeader(x, ram, request, key); var r := Reseal(x, Ran(x, h, key, s, n).ram);
      && r.rc == 0 && Validate(x, r.ram) == 0 && Open(x, r.ram) == (0, key)
      && Ends(x, h, key, plain, r.ram, Completed(x, h, key, s, n))
  {
    var h := SealedHeader(x, ram, request, key);
    SealedHolds(x, ram, request, key);
    assert h.l == Normalize(request);
    hide Seal;
    hide SealedHeader;
    hide NewHeader;
    hide Normalize;
    hide Prepared;
    hide Carries;
    hide Intact;
    hide Validate;
    hide Open;
    hide Reseal;
    hide Positions;
    hide Places;
    hide Ran;
    hide Completed;
    hide Proof.Reset;
    hide Holds;
    hide ImageTag;
    PreparedShape(x, h.l, key, plain, mid, ram);
    PreparedCarries(x, h, key, plain, mid, ram);
    SealCarries(x, request, key, plain, ram);
    SealedIsIntact(x, ram, request, key);
    IntactOpens(x, s.ram, h, key);
    var t := Ran(x, h, key, s, n);
    RunLeaves(x, h, key, plain, s, n);
    IntactAfterRun(x, s.ram, t.ram, h, key);
    ResealRestores(x, t.ram, h, key);
    ResealedEnds(x, h, key, plain, s.ram, t.ram, Reseal(x, t.ram).ram, Completed(x, h, key, s, n));
  }
}
