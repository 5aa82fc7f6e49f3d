/** Numbers as 32-bit words and back, by their hexadecimal digits. */
module Numbers {
  import opened Words

  function Nibble(w: Word, i: bv6): bv4
    requires i <= 28
  {
    ((w >> i) & 0xF) as bv4
  }

  function Half(d3: bv4, d2: bv4, d1: bv4, d0: bv4): bv16 {
    ((d3 as bv16) << 12) | ((d2 as bv16) << 8) | ((d1 as bv16) << 4) | (d0 as bv16)
  }

  function Compose(d7: bv4, d6: bv4, d5: bv4, d4: bv4, d3: bv4, d2: bv4, d1: bv4, d0: bv4): Word {
    ((Half(d7, d6, d5, d4) as Word) << 16) | (Half(d3, d2, d1, d0) as Word)
  }

  function Value(d: bv4): (n: nat)
    ensures n < 16
  {
    d as nat
  }

  /** The number a word stands for. */
  function NatOf(w: Word): (n: nat)
    ensures n < 0x1_0000_0000
  {
    hide Value;
    hide Nibble;
    0x1000_0000 * Value(Nibble(w, 28)) + 0x100_0000 * Value(Nibble(w, 24))
    + 0x10_0000 * Value(Nibble(w, 20)) + 0x1_0000 * Value(Nibble(w, 16))
    + 0x1000 * Value(Nibble(w, 12)) + 0x100 * Value(Nibble(w, 8))
    + 0x10 * Value(Nibble(w, 4)) + Value(Nibble(w, 0))
  }

  function HexDigit(d: nat): bv4
    requires d < 16
  {
    d as bv4
  }

  lemma HexDigitValue(d: nat)
    requires d < 16
    ensures Value(HexDigit(d)) == d
  {
  }

  function Digit(n: nat): bv4 { HexDigit(n % 16) }

  /** The low 32 bits of a number. */
  function WordOf(n: nat): Word {
    Compose(Digit(n / 0x1000_0000), Digit(n / 0x100_0000), Digit(n / 0x10_0000), Digit(n / 0x1_0000),
            Digit(n / 0x1000), Digit(n / 0x100), Digit(n / 0x10), Digit(n))
  }

  lemma DigitValue(n: nat)
    ensures Value(Digit(n)) == n % 16
  {
    hide HexDigit;
    hide Value;
    HexDigitValue(n % 16);
  }

  lemma ComposedNibbles(d7: bv4, d6: bv4, d5: bv4, d4: bv4, d3: bv4, d2: bv4, d1: bv4, d0: bv4)
    ensures var w := Compose(d7, d6, d5, d4, d3, d2, d1, d0);
      && Nibble(w, 28) == d7 && Nibble(w, 24) == d6 && Nibble(w, 20) == d5 && Nibble(w, 16) == d4
      && Nibble(w, 12) == d3 && Nibble(w, 8) == d2 && Nibble(w, 4) == d1 && Nibble(w, 0) == d0
  {
  }

  /** A number below 2^32 survives being stored in a word. */
  lemma StoredNumber(n: nat)
    requires n < 0x1_0000_0000
    ensures NatOf(WordOf(n)) == n
  {
    hide Digit;
    hide Nibble;
    hide Compose;
    hide Value;
    ComposedNibbles(Digit(n / 0x1000_0000), Digit(n / 0x100_0000), Digit(n / 0x10_0000), Digit(n / 0x1_0000),
                    Digit(n / 0x1000), Digit(n / 0x100), Digit(n / 0x10), Digit(n));
    DigitValue(n / 0x1000_0000);
    DigitValue(n / 0x100_0000);
    DigitValue(n / 0x10_0000);
    DigitValue(n / 0x1_0000);
    DigitValue(n / 0x1000);
    DigitValue(n / 0x100);
    DigitValue(n / 0x10);
    DigitValue(n);
    Hexadecimal(n);
  }

  lemma Hexadecimal(n: nat)
    requires n < 0x1_0000_0000
    ensures n == 0x1000_0000 * (n / 0x1000_0000 % 16) + 0x100_0000 * (n / 0x100_0000 % 16)
                 + 0x10_0000 * (n / 0x10_0000 % 16) + 0x1_0000 * (n / 0x1_0000 % 16)
                 + 0x1000 * (n / 0x1000 % 16) + 0x100 * (n / 0x100 % 16) + 0x10 * (n / 0x10 % 16) + n % 16
  {
    assert n / 0x100 == n / 0x10 / 16;
    assert n / 0x1000 == n / 0x100 / 16;
    assert n / 0x1_0000 == n / 0x1000 / 16;
    assert n / 0x10_0000 == n / 0x1_0000 / 16;
    assert n / 0x100_0000 == n / 0x10_0000 / 16;
    assert n / 0x1000_0000 == n / 0x100_0000 / 16;
    assert n / 0x1000_0000 < 16;
  }
}
