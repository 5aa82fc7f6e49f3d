/**
 * The copy of the wrapped key that is hidden bit by bit in the unused part of
 * the image: where the bits go, how they are put there and how they are read.
 */
module HiddenKey {
  import opened Words
  import opened Numbers
  import opened BlockMap

  datatype Option<T> = None | Some(value: T)

  const HEADER_WORDS: nat := 32
  const KEY_BITS: nat := 128
  const ATTEMPTS: nat := 2048

  /** One bit of one word of the image. */
  datatype Position = Position(word: nat, bit: bv5)

  // ------------------------------------------------------------- choosing positions

  /** Hidden bits lie at or above this word. */
  function Low(words: nat): nat {
    var low := if words > 640 then 512 else words / 2;
    if low < HEADER_WORDS then HEADER_WORDS else low
  }

  function FirstSeed(nonce: Block, textStart: nat, textEnd: nat): Word {
    nonce.w0 ^ Rotl(nonce.w1, 3) ^ Rotl(nonce.w2, 9) ^ Rotl(nonce.w3, 15)
    ^ (WordOf(textStart) * 0x9E37_79B9) ^ (WordOf(textEnd) * 0x85EB_CA6B)
  }

  function NextSeed(seed: Word, i: nat, attempt: nat): Word {
    PrngStep(seed + 0xA511_E9B3 + WordOf(i) * 0x3C6E_F372 + WordOf(attempt))
  }

  function Candidate(seed: Word, words: nat): Position
    requires Low(words) < words
  {
    Position(Low(words) + NatOf(seed) % (words - Low(words)), ((seed >> 27) & 31) as bv5)
  }

  /** A position outside header and text that is not taken yet. */
  predicate Free(p: Position, textStart: nat, textEnd: nat, chosen: seq<Position>) {
    p.word >= HEADER_WORDS && !(textStart <= p.word < textEnd) && p !in chosen
  }

  /** The attempts for one bit: its position and the seed to go on with. */
  function PickOne(seed: Word, i: nat, attempt: nat, words: nat, textStart: nat, textEnd: nat, chosen: seq<Position>): (r: Option<(Position, Word)>)
    requires Low(words) < words
    ensures r.Some? ==> Free(r.value.0, textStart, textEnd, chosen) && Low(words) <= r.value.0.word < words
    decreases ATTEMPTS - attempt
  {
    if attempt >= ATTEMPTS then None
    else
      var next := NextSeed(seed, i, attempt);
      var p := Candidate(next, words);
      if Free(p, textStart, textEnd, chosen) then Some((p, next))
      else PickOne(next, i, attempt + 1, words, textStart, textEnd, chosen)
  }

  function PickRest(seed: Word, words: nat, textStart: nat, textEnd: nat, chosen: seq<Position>): Option<seq<Position>>
    requires Low(words) < words
    decreases KEY_BITS - |chosen|
  {
    if |chosen| >= KEY_BITS then Some(chosen)
    else match PickOne(seed, |chosen|, 0, words, textStart, textEnd, chosen)
      case None => None
      case Some((p, next)) => PickRest(next, words, textStart, textEnd, chosen + [p])
  }

  function GeneratePositions(nonce: Block, textStart: nat, textEnd: nat, words: nat): Option<seq<Position>> {
    if words <= HEADER_WORDS || Low(words) >= words then None
    else PickRest(FirstSeed(nonce, textStart, textEnd), words, textStart, textEnd, [])
  }

  /** Positions that differ from each other and avoid header, text and everything below the window. */
  predicate Apart(s: seq<Position>, words: nat, textStart: nat, textEnd: nat) {
    && (forall i :: 0 <= i < |s| ==>
          HEADER_WORDS <= s[i].word < words && Low(words) <= s[i].word && !(textStart <= s[i].word < textEnd))
    && (forall i, j :: 0 <= i < j < |s| ==> s[i] != s[j])
  }

  lemma {:induction false} PickedApart(seed: Word, words: nat, textStart: nat, textEnd: nat, chosen: seq<Position>)
    requires Low(words) < words && Apart(chosen, words, textStart, textEnd) && |chosen| <= KEY_BITS
    ensures var r := PickRest(seed, words, textStart, textEnd, chosen);
      r.Some? ==> |r.value| == KEY_BITS && Apart(r.value, words, textStart, textEnd)
    decreases KEY_BITS - |chosen|
  {
    hide PickOne;
    hide Low;
    if |chosen| < KEY_BITS {
      match PickOne(seed, |chosen|, 0, words, textStart, textEnd, chosen)
      case None =>
      case Some((p, next)) => PickedApart(next, words, textStart, textEnd, chosen + [p]);
    }
  }

  /** When positions are found, there are 128 of them, all different, in the window and outside the text. */
  lemma PositionsApart(nonce: Block, textStart: nat, textEnd: nat, words: nat)
    ensures var r := GeneratePositions(nonce, textStart, textEnd, words);
      r.Some? ==> |r.value| == KEY_BITS && Apart(r.value, words, textStart, textEnd)
  {
    hide PickRest;
    hide FirstSeed;
    if words > HEADER_WORDS && Low(words) < words {
      PickedApart(FirstSeed(nonce, textStart, textEnd), words, textStart, textEnd, []);
    }
  }

  /** The source's scan for a duplicate. */
  method IsTaken(positions: array<Position>, n: nat, p: Position) returns (dup: bool)
    requires n <= positions.Length
    ensures dup == (p in positions[..n])
  {
    dup := false;
    for j := 0 to n
      invariant dup == (p in positions[..j])
    {
      if positions[j] == p { dup := true; }
    }
  }

  /** The attempts for one bit. */
  method PlaceOne(seed: Word, i: nat, words: nat, textStart: nat, textEnd: nat, positions: array<Position>)
    returns (placed: bool, p: Position, next: Word)
    requires Low(words) < words && i <= positions.Length
    ensures var r := PickOne(seed, i, 0, words, textStart, textEnd, positions[..i]);
      placed == r.Some? && (placed ==> r == Some((p, next)))
  {
    hide NextSeed;
    hide Candidate;
    hide Low;
    var attempt := 0;
    next, p := seed, Position(0, 0);
    while attempt < ATTEMPTS
      invariant attempt <= ATTEMPTS
      invariant PickOne(seed, i, 0, words, textStart, textEnd, positions[..i])
                == PickOne(next, i, attempt, words, textStart, textEnd, positions[..i])
    {
      next := NextSeed(next, i, attempt);
      attempt := attempt + 1;
      p := Candidate(next, words);
      if p.word < HEADER_WORDS || (textStart <= p.word < textEnd) { continue; }
      var dup := IsTaken(positions, i, p);
      if dup { continue; }
      return true, p, next;
    }
    placed := false;
  }

  /** The search of the source. */
  method FindPositions(nonce: Block, textStart: nat, textEnd: nat, words: nat, positions: array<Position>) returns (ok: bool)
    requires positions.Length == KEY_BITS
    modifies positions
    ensures ok == GeneratePositions(nonce, textStart, textEnd, words).Some?
    ensures ok ==> positions[..] == GeneratePositions(nonce, textStart, textEnd, words).value
  {
    hide PickOne;
    hide FirstSeed;
    if words <= HEADER_WORDS || Low(words) >= words { return false; }
    hide Low;
    var seed := FirstSeed(nonce, textStart, textEnd);
    ghost var all := PickRest(seed, words, textStart, textEnd, []);
    var i := 0;
    while i < KEY_BITS
      invariant i <= KEY_BITS
      invariant PickRest(seed, words, textStart, textEnd, positions[..i]) == all
    {
      var placed, p, next := PlaceOne(seed, i, words, textStart, textEnd, positions);
      if !placed { return false; }
      ghost var before := positions[..i];
      positions[i] := p;
      assert positions[..i + 1] == before + [p];
      seed, i := next, i + 1;
    }
    assert positions[..i] == positions[..];
    return true;
  }

  // -------------------------------------------------------------------- single bits

  function TestBit(w: Word, k: bv5): bool { (w >> (k as bv6)) & 1 == 1 }

  /** Clears one bit of a word and sets it to `v`. */
  function SetBit(w: Word, k: bv5, v: bool): Word {
    (w & !(1 << (k as bv6))) | ((if v then 1 else 0) << (k as bv6))
  }

  lemma SetThenTest(w: Word, k: bv5, v: bool, j: bv5)
    ensures TestBit(SetBit(w, k, v), j) == if j == k then v else TestBit(w, j)
  {
  }

  function SmallBit(i: nat): bv5
    requires i < 32
  {
    i as bv5
  }

  /** Bit `i` of the 128 bits of a key. */
  function KeyBit(key: Block, i: nat): bool
    requires i < KEY_BITS
  {
    TestBit(key.At(i / 32), SmallBit(i % 32))
  }

  /** The first `n` bits of a word. */
  function LowMask(n: nat): Word
    requires n <= 32
  {
    if n == 0 then 0 else OrBit(LowMask(n - 1), true, SmallBit(n - 1))
  }

  function WithBit(w: Word, k: bv5): Word { w | (1 << (k as bv6)) }

  /** Or-ing a bit into a word that may already have it. */
  function OrBit(w: Word, v: bool, k: bv5): Word { if v then WithBit(w, k) else w }

  function And(w: Word, m: Word): Word { w & m }

  /** Distributing one bit over a mask, for a shifted bit `b`. */
  lemma MaskOneBit(w: Word, m: Word, b: Word)
    requires w & b == b
    ensures (w & m) | b == w & (m | b)
  {
  }

  lemma MaskNoBit(w: Word, m: Word, b: Word)
    requires w & b == 0
    ensures w & m == w & (m | b)
  {
  }

  lemma TestedBit(w: Word, k: bv5)
    ensures w & (1 << (k as bv6)) == if TestBit(w, k) then 1 << (k as bv6) else 0
  {
  }

  lemma MaskStep(w: Word, m: Word, k: bv5)
    ensures OrBit(And(w, m), TestBit(w, k), k) == And(w, OrBit(m, true, k))
  {
    hide TestBit;
    TestedBit(w, k);
    if TestBit(w, k) { MaskOneBit(w, m, 1 << (k as bv6)); } else { MaskNoBit(w, m, 1 << (k as bv6)); }
  }

  /** A word with all but its first `n` bits cleared. */
  function MaskedTo(w: Word, n: nat): Word
    requires n <= 32
  {
    And(w, LowMask(n))
  }

  lemma LowMaskStep(n: nat)
    requires 0 < n <= 32
    ensures LowMask(n) == OrBit(LowMask(n - 1), true, SmallBit(n - 1))
  {
    hide OrBit;
    hide SmallBit;
  }

  lemma MaskedStep(w: Word, n: nat)
    requires 0 < n <= 32
    ensures OrBit(MaskedTo(w, n - 1), TestBit(w, SmallBit(n - 1)), SmallBit(n - 1)) == MaskedTo(w, n)
  {
    hide OrBit;
    hide TestBit;
    hide SmallBit;
    hide LowMask;
    hide And;
    LowMaskStep(n);
    MaskStep(w, LowMask(n - 1), SmallBit(n - 1));
  }

  lemma MaskedWhole(w: Word)
    ensures MaskedTo(w, 32) == w && MaskedTo(w, 0) == 0
  {
    hide OrBit;
    FullMask();
    AllBits(w);
  }

  lemma FullMask()
    ensures LowMask(32) == 0xFFFF_FFFF
  {
    assert LowMask(4) == 0xF;
    assert LowMask(8) == 0xFF;
    assert LowMask(12) == 0xFFF;
    assert LowMask(16) == 0xFFFF;
    assert LowMask(20) == 0xF_FFFF;
    assert LowMask(24) == 0xFF_FFFF;
    assert LowMask(28) == 0xFFF_FFFF;
  }

  // ----------------------------------------------------------------- hiding and reading

  function HideBit(ram: seq<Word>, p: Position, v: bool): (r: seq<Word>)
    requires p.word < |ram|
    ensures |r| == |ram|
  {
    ram[p.word := SetBit(ram[p.word], p.bit, v)]
  }

  /** The image with the first `n` key bits hidden. */
  function Hide(ram: seq<Word>, s: seq<Position>, key: Block, n: nat): (r: seq<Word>)
    requires n <= |s| <= KEY_BITS && forall i :: 0 <= i < |s| ==> s[i].word < |ram|
    ensures |r| == |ram|
  {
    if n == 0 then ram else HideBit(Hide(ram, s, key, n - 1), s[n - 1], KeyBit(key, n - 1))
  }

  predicate Shown(ram: seq<Word>, p: Position)
    requires p.word < |ram|
  {
    TestBit(ram[p.word], p.bit)
  }

  /** Word `q` of the hidden key, from its first `n` bits. */
  function ReadWord(ram: seq<Word>, s: seq<Position>, q: nat, n: nat): Word
    requires q < 4 && n <= 32 && |s| == KEY_BITS && forall i :: 0 <= i < |s| ==> s[i].word < |ram|
  {
    if n == 0 then 0
    else OrBit(ReadWord(ram, s, q, n - 1), Shown(ram, s[32 * q + n - 1]), SmallBit(n - 1))
  }

  function Extract(ram: seq<Word>, s: seq<Position>): Block
    requires |s| == KEY_BITS && forall i :: 0 <= i < |s| ==> s[i].word < |ram|
  {
    Block(ReadWord(ram, s, 0, 32), ReadWord(ram, s, 1, 32), ReadWord(ram, s, 2, 32), ReadWord(ram, s, 3, 32))
  }

  ghost predicate InImage(s: seq<Position>, words: nat) { forall i :: 0 <= i < |s| ==> s[i].word < words }

  /** Hiding changes no word in which no bit is hidden. */
  lemma {:induction false} HideElsewhere(ram: seq<Word>, s: seq<Position>, key: Block, n: nat, w: nat)
    requires n <= |s| <= KEY_BITS && InImage(s, |ram|) && w < |ram|
    requires forall i :: 0 <= i < |s| ==> s[i].word != w
    ensures Hide(ram, s, key, n)[w] == ram[w]
  {
    hide SetBit;
    hide KeyBit;
    if n > 0 { HideElsewhere(ram, s, key, n - 1, w); }
  }

  /** Bits hidden later do not disturb bits hidden before. */
  lemma {:induction false} HiddenIsShown(ram: seq<Word>, s: seq<Position>, key: Block, n: nat, i: nat)
    requires i < n <= |s| <= KEY_BITS && InImage(s, |ram|)
    requires forall j, k :: 0 <= j < k < |s| ==> s[j] != s[k]
    ensures Shown(Hide(ram, s, key, n), s[i]) == KeyBit(key, i)
  {
    hide SetBit;
    hide TestBit;
    hide KeyBit;
    var before, p := Hide(ram, s, key, n - 1), s[n - 1];
    SetThenTest(before[p.word], p.bit, KeyBit(key, n - 1), s[i].bit);
    if i < n - 1 { HiddenIsShown(ram, s, key, n - 1, i); }
  }

  lemma {:induction false} ReadsWord(ram: seq<Word>, s: seq<Position>, key: Block, q: nat, n: nat)
    requires q < 4 && n <= 32 && |s| == KEY_BITS && InImage(s, |ram|)
    requires forall i :: 0 <= i < KEY_BITS ==> Shown(ram, s[i]) == KeyBit(key, i)
    ensures ReadWord(ram, s, q, n) == MaskedTo(key.At(q), n)
  {
    hide Shown;
    hide TestBit;
    hide SmallBit;
    hide OrBit;
    hide Block.At;
    hide MaskedTo;
    MaskedWhole(key.At(q));
    if n > 0 {
      ReadsWord(ram, s, key, q, n - 1);
      var i := 32 * q + n - 1;
      assert i / 32 == q && i % 32 == n - 1;
      assert Shown(ram, s[i]) == KeyBit(key, i);
      MaskedStep(key.At(q), n);
    }
  }

  lemma OrThenTest(w: Word, v: bool, a: bv5, b: bv5)
    ensures TestBit(OrBit(w, v, a), b) == if a == b then v || TestBit(w, a) else TestBit(w, b)
  {
  }

  lemma SmallBitInjective(i: nat, j: nat)
    requires i < 32 && j < 32 && SmallBit(i) == SmallBit(j)
    ensures i == j
  {
    assert SmallBit(i) as nat == i && SmallBit(j) as nat == j;
  }

  /** Bits not read yet are zero. */
  lemma {:induction false} UnreadIsZero(ram: seq<Word>, s: seq<Position>, q: nat, n: nat, j: nat)
    requires q < 4 && n <= j < 32 && |s| == KEY_BITS && InImage(s, |ram|)
    ensures !TestBit(ReadWord(ram, s, q, n), SmallBit(j))
  {
    hide OrBit;
    hide SmallBit;
    hide Shown;
    if n == 0 {
      assert !TestBit(0, SmallBit(j));
    } else {
      hide TestBit;
      UnreadIsZero(ram, s, q, n - 1, j);
      OrThenTest(ReadWord(ram, s, q, n - 1), Shown(ram, s[32 * q + n - 1]), SmallBit(n - 1), SmallBit(j));
      if SmallBit(n - 1) == SmallBit(j) { SmallBitInjective(n - 1, j); }
    }
  }

  /** A bit that is read is in the word that is read. */
  lemma {:induction false} ReadShows(ram: seq<Word>, s: seq<Position>, q: nat, k: nat, n: nat)
    requires q < 4 && k < n <= 32 && |s| == KEY_BITS && InImage(s, |ram|)
    ensures TestBit(ReadWord(ram, s, q, n), SmallBit(k)) == Shown(ram, s[32 * q + k])
    decreases n
  {
    hide TestBit;
    hide OrBit;
    hide SmallBit;
    hide Shown;
    OrThenTest(ReadWord(ram, s, q, n - 1), Shown(ram, s[32 * q + n - 1]), SmallBit(n - 1), SmallBit(k));
    if k < n - 1 {
      if SmallBit(n - 1) == SmallBit(k) { SmallBitInjective(n - 1, k); }
      ReadShows(ram, s, q, k, n - 1);
    } else {
      UnreadIsZero(ram, s, q, n - 1, k);
    }
  }

  /** The image with one bit inverted. */
  function FlipAt(ram: seq<Word>, p: Position): (r: seq<Word>)
    requires p.word < |ram|
    ensures |r| == |ram|
  {
    HideBit(ram, p, !Shown(ram, p))
  }

  /** Inverting any one hidden bit changes the key that is read. */
  lemma FlippedIsSeen(ram: seq<Word>, s: seq<Position>, i: nat)
    requires |s| == KEY_BITS && InImage(s, |ram|) && i < KEY_BITS
    ensures Extract(FlipAt(ram, s[i]), s) != Extract(ram, s)
  {
    hide SetBit;
    hide TestBit;
    hide SmallBit;
    hide ReadWord;
    var r, q, n := FlipAt(ram, s[i]), i / 32, i % 32;
    assert 32 * q + n == i;
    SetThenTest(ram[s[i].word], s[i].bit, !Shown(ram, s[i]), s[i].bit);
    ReadShows(ram, s, q, n, 32);
    ReadShows(r, s, q, n, 32);
    assert Extract(r, s).At(q) == ReadWord(r, s, q, 32) && Extract(ram, s).At(q) == ReadWord(ram, s, q, 32);
  }

  /** The hidden key is read back exactly, whatever was in the image. */
  lemma HiddenKeyRoundTrip(ram: seq<Word>, s: seq<Position>, key: Block)
    requires |s| == KEY_BITS && InImage(s, |ram|) && forall j, k :: 0 <= j < k < |s| ==> s[j] != s[k]
    ensures Extract(Hide(ram, s, key, KEY_BITS), s) == key
  {
    hide Hide;
    hide Shown;
    hide KeyBit;
    hide ReadWord;
    hide MaskedTo;
    var r := Hide(ram, s, key, KEY_BITS);
    forall i | 0 <= i < KEY_BITS ensures Shown(r, s[i]) == KeyBit(key, i) { HiddenIsShown(ram, s, key, KEY_BITS, i); }
    forall q | 0 <= q < 4 ensures ReadWord(r, s, q, 32) == key.At(q) {
      ReadsWord(r, s, key, q, 32);
      MaskedWhole(key.At(q));
    }
    assert key == Block(key.At(0), key.At(1), key.At(2), key.At(3));
  }

  lemma AllBits(w: Word)
    ensures w & 0xFFFF_FFFF == w
  {
  }

  /** Reading depends only on the words that hold hidden bits. */
  lemma ExtractDependsOn(ram: seq<Word>, other: seq<Word>, s: seq<Position>)
    requires |s| == KEY_BITS && |ram| == |other| && InImage(s, |ram|)
    requires forall i :: 0 <= i < |s| ==> other[s[i].word] == ram[s[i].word]
    ensures Extract(other, s) == Extract(ram, s)
  {
    hide ReadWord;
    ReadDependsOn(ram, other, s, 0, 32);
    ReadDependsOn(ram, other, s, 1, 32);
    ReadDependsOn(ram, other, s, 2, 32);
    ReadDependsOn(ram, other, s, 3, 32);
  }

  lemma {:induction false} ReadDependsOn(ram: seq<Word>, other: seq<Word>, s: seq<Position>, q: nat, n: nat)
    requires q < 4 && n <= 32 && |s| == KEY_BITS && |ram| == |other| && InImage(s, |ram|)
    requires forall i :: 0 <= i < |s| ==> other[s[i].word] == ram[s[i].word]
    ensures ReadWord(other, s, q, n) == ReadWord(ram, s, q, n)
  {
    hide TestBit;
    hide SmallBit;
    hide OrBit;
    if n > 0 { ReadDependsOn(ram, other, s, q, n - 1); }
  }

  // ------------------------------------------------------------------------ in place

  /** Hides the key in the image. */
  method HideWrapped(mem: array<Word>, s: seq<Position>, key: Block)
    requires |s| == KEY_BITS && InImage(s, mem.Length)
    modifies mem
    ensures mem[..] == Hide(old(mem[..]), s, key, KEY_BITS)
  {
    hide SetBit;
    hide KeyBit;
    var i := 0;
    while i < KEY_BITS
      invariant i <= KEY_BITS && mem[..] == Hide(old(mem[..]), s, key, i)
    {
      var p := s[i];
      mem[p.word] := SetBit(mem[p.word], p.bit, KeyBit(key, i));
      i := i + 1;
    }
  }

  /** Reads the hidden key, or-ing its bits into four words. */
  method ExtractHidden(mem: array<Word>, s: seq<Position>) returns (key: Block)
    requires |s| == KEY_BITS && InImage(s, mem.Length)
    ensures key == Extract(mem[..], s)
  {
    hide TestBit;
    hide SmallBit;
    hide OrBit;
    key := ZERO;
    for q := 0 to 4
      invariant forall r :: 0 <= r < q ==> key.At(r) == ReadWord(mem[..], s, r, 32)
      invariant forall r :: q <= r < 4 ==> key.At(r) == 0
    {
      for n := 0 to 32
        invariant forall r :: 0 <= r < q ==> key.At(r) == ReadWord(mem[..], s, r, 32)
        invariant key.At(q) == ReadWord(mem[..], s, q, n)
        invariant forall r :: q < r < 4 ==> key.At(r) == 0
      {
        var p := s[32 * q + n];
        var was := key;
        key := key.Set(q, OrBit(key.At(q), TestBit(mem[p.word], p.bit), SmallBit(n)));
        assert forall r :: 0 <= r < 4 && r != q ==> key.At(r) == was.At(r);
      }
    }
    assert key == Block(key.At(0), key.At(1), key.At(2), key.At(3));
  }
}
