/**
 * Where the blocks of the text region are stored: an affine map of block
 * numbers whose multiplier is searched for until it is coprime to their count.
 */
module BlockMap {
  import opened Words
  import opened Numbers

  // ------------------------------------------------------- greatest common divisor

  /** Euclid's recursion; zero counts as one. */
  function Gcd(a: nat, b: nat): nat
    decreases b
  {
    if b == 0 then (if a == 0 then 1 else a) else Gcd(b, a % b)
  }

  method SecureGcd(a0: nat, b0: nat) returns (g: nat)
    ensures g == Gcd(a0, b0)
  {
    var a, b := a0, b0;
    while b != 0
      invariant Gcd(a, b) == Gcd(a0, b0)
      decreases b
    {
      a, b := b, a % b;
    }
    g := if a == 0 then 1 else a;
  }

  /** Coefficients that combine two numbers to their greatest common divisor. */
  function Bezout(a: nat, b: nat): (r: (int, int))
    requires a + b > 0
    ensures r.0 * a + r.1 * b == Gcd(a, b)
    decreases b
  {
    if b == 0 then (1, 0)
    else
      var (s, t) := Bezout(b, a % b);
      BezoutStep(a, b, s, t, Gcd(b, a % b));
      (t, s - t * (a / b))
  }

  lemma BezoutStep(a: nat, b: nat, s: int, t: int, g: int)
    requires b > 0 && s * b + t * (a % b) == g
    ensures t * a + (s - t * (a / b)) * b == g
  {
    assert a == b * (a / b) + a % b;
    calc {
      t * a + (s - t * (a / b)) * b;
      t * (b * (a / b) + a % b) + s * b - t * (a / b) * b;
      s * b + t * (a % b);
    }
  }

  // ------------------------------------------------------------ division, once and for all

  lemma Grows(n: nat, k: int)
    requires k >= 1
    ensures n * k >= n
  {
    assert n * (k - 1) >= 0;
    assert n * k == n * (k - 1) + n;
  }

  lemma SmallMultiple(n: nat, k: int)
    requires 0 - n < n * k < n
    ensures k == 0
  {
    if k >= 1 { Grows(n, k); }
    if k <= -1 { Grows(n, -k); }
  }

  /** Quotient and remainder are determined. */
  lemma DividesOnce(v: int, n: nat, d: int, r: nat)
    requires r < n && v == n * d + r
    ensures v / n == d && v % n == r
  {
    var e, t := v / n, v % n;
    assert v == n * e + t;
    assert n * (e - d) == n * e - n * d;
    SmallMultiple(n, e - d);
  }

  // -------------------------------------------------------------------- parameters

  /** The seed mixer; it never yields zero. */
  function PrngStep(x: Word): (y: Word)
    ensures y != 0
  {
    var a := x ^ (x << 13);
    var b := a ^ (a >> 17);
    var c := b ^ (b << 5);
    if c != 0 then c else 0xA5A5_A5A5
  }

  function Rotl(x: Word, r: bv6): Word
    requires 0 < r < 32
  {
    (x << r) | (x >> (32 - r))
  }

  function MapSeed(textStart: nat, textEnd: nat, epoch: Word): Word {
    PrngStep(epoch ^ (WordOf(textStart) * 0x9E37_79B9) ^ Rotl(WordOf(textEnd), 7) ^ 0xC001_D00D)
  }

  function Odd(n: nat): nat { if n % 2 == 0 then n + 1 else n }

  /** The next multiplier to try. */
  function NextCandidate(c: nat, count: nat): nat
    requires count > 0
  {
    if c + 2 >= count then Odd((c + 2) % count) else c + 2
  }

  /** The search: at most `left` more candidates, and 1 if none is coprime. */
  function Search(c: nat, count: nat, left: nat): (mul: nat)
    requires count > 0
    decreases left
  {
    if Gcd(c, count) == 1 then c
    else if left == 0 then 1
    else Search(NextCandidate(c, count), count, left - 1)
  }

  datatype MapParams = MapParams(start: nat, count: nat, mul: nat, add: nat)

  function FirstCandidate(seed: nat, count: nat): nat
    requires count > 0
  {
    var c := Odd(seed % count);
    if c >= count then Odd(c % count) else c
  }

  function BuildMapParams(textStart: nat, textEnd: nat, epoch: Word): MapParams {
    var start, end := textStart / 4, textEnd / 4;
    var count := if end > start then end - start else 0;
    if count <= 1 then MapParams(start, count, 1, 0)
    else
      var seed := MapSeed(textStart, textEnd, epoch);
      MapParams(start, count, Search(FirstCandidate(NatOf(seed), count), count, count + 8),
                NatOf(PrngStep(seed ^ 0xA511_E9B3)) % count)
  }

  /** The search loop of the source. */
  method BuildParams(textStart: nat, textEnd: nat, epoch: Word) returns (p: MapParams)
    ensures p == BuildMapParams(textStart, textEnd, epoch)
  {
    hide MapSeed;
    hide PrngStep;
    hide NatOf;
    hide Gcd;
    hide Odd;
    var start, end := textStart / 4, textEnd / 4;
    var count := if end > start then end - start else 0;
    if count <= 1 { return MapParams(start, count, 1, 0); }
    var seed := MapSeed(textStart, textEnd, epoch);
    var candidate: nat := Odd(NatOf(seed) % count);
    if candidate >= count { candidate := Odd(candidate % count); }
    ghost var first := candidate;
    var guard := 0;
    var g := SecureGcd(candidate, count);
    while g != 1 && guard < count + 8
      invariant guard <= count + 8 && g == Gcd(candidate, count)
      invariant Search(first, count, count + 8) == Search(candidate, count, count + 8 - guard)
      decreases count + 8 - guard
    {
      candidate := candidate + 2;
      if candidate >= count { candidate := Odd(candidate % count); }
      guard := guard + 1;
      g := SecureGcd(candidate, count);
    }
    if g != 1 { candidate := 1; }
    p := MapParams(start, count, candidate, NatOf(PrngStep(seed ^ 0xA511_E9B3)) % count);
  }

  lemma GcdOne(n: nat)
    ensures Gcd(1, n) == 1
  {
    if n > 1 {
      DividesOnce(1, n, 0, 1);
      DividesOnce(n, 1, n, 0);
      assert Gcd(1, n) == Gcd(n, 1);
    }
  }

  /** Whatever the seed, the search ends with a multiplier coprime to the block count. */
  lemma {:induction false} SearchIsCoprime(c: nat, count: nat, left: nat)
    requires count > 0
    ensures Gcd(Search(c, count, left), count) == 1
    decreases left
  {
    GcdOne(count);
    if Gcd(c, count) != 1 && left > 0 { SearchIsCoprime(NextCandidate(c, count), count, left - 1); }
  }

  // --------------------------------------------------------------------- the map

  function MapBlock(b: nat, p: MapParams): nat {
    if p.count <= 1 || b < p.start || b >= p.start + p.count then b
    else p.start + (p.mul * (b - p.start) + p.add) % p.count
  }

  lemma Combine(s: int, mul: int, t: int, n: int, d: int, q: int)
    requires s * mul + t * n == 1 && mul * d == n * q
    ensures d == n * (s * q + t * d)
  {
    assert (s * mul + t * n) * d == s * (mul * d) + n * (t * d);
    assert s * (n * q) == n * (s * q);
    assert n * (s * q + t * d) == n * (s * q) + n * (t * d);
  }

  /** A number below `n` that a coprime factor takes to a multiple of `n` is zero. */
  lemma CoprimeCancels(mul: nat, d: nat, n: nat, q: int)
    requires n > 0 && Gcd(mul, n) == 1 && mul * d == n * q && d < n
    ensures d == 0
  {
    var (s, t) := Bezout(mul, n);
    Combine(s, mul, t, n, d, q);
    SmallMultiple(n, s * q + t * d);
  }

  lemma AffineInjective(mul: nat, add: nat, i: nat, j: nat, n: nat)
    requires n > 0 && Gcd(mul, n) == 1 && i <= j < n
    requires (mul * i + add) % n == (mul * j + add) % n
    ensures i == j
  {
    hide Gcd;
    var x, y := mul * i + add, mul * j + add;
    assert x == n * (x / n) + x % n && y == n * (y / n) + y % n;
    assert mul * (j - i) == mul * j - mul * i;
    assert n * (y / n - x / n) == n * (y / n) - n * (x / n);
    CoprimeCancels(mul, j - i, n, y / n - x / n);
  }

  ghost predicate Permutes(p: MapParams) {
    && (forall b :: p.start <= b < p.start + p.count ==> p.start <= MapBlock(b, p) < p.start + p.count)
    && (forall a, b :: p.start <= a < p.start + p.count && p.start <= b < p.start + p.count && MapBlock(a, p) == MapBlock(b, p) ==> a == b)
    && (forall b: nat :: b < p.start || b >= p.start + p.count ==> MapBlock(b, p) == b)
  }

  /** For every region and epoch the map permutes the blocks of the region and moves nothing else. */
  lemma MapPermutes(textStart: nat, textEnd: nat, epoch: Word)
    ensures Permutes(BuildMapParams(textStart, textEnd, epoch))
  {
    hide MapSeed;
    hide PrngStep;
    hide NatOf;
    var p := BuildMapParams(textStart, textEnd, epoch);
    if p.count > 1 {
      SearchIsCoprime(FirstCandidate(NatOf(MapSeed(textStart, textEnd, epoch)), p.count), p.count, p.count + 8);
      hide BuildMapParams;
      forall a, b | p.start <= a <= b < p.start + p.count && MapBlock(a, p) == MapBlock(b, p) ensures a == b {
        AffineInjective(p.mul, p.add, a - p.start, b - p.start, p.count);
      }
    }
  }

  /** The block the map takes to `b`. */
  ghost function Unmap(b: nat, p: MapParams): nat
    requires p.start <= b < p.start + p.count
  {
    if p.count <= 1 then b else p.start + (Bezout(p.mul, p.count).0 * (b - p.start - p.add)) % p.count
  }

  /** The map is onto: every block of the region is where some block is stored. */
  lemma MapIsOnto(textStart: nat, textEnd: nat, epoch: Word, b: nat)
    requires var p := BuildMapParams(textStart, textEnd, epoch); p.start <= b < p.start + p.count
    ensures var p := BuildMapParams(textStart, textEnd, epoch);
      p.start <= Unmap(b, p) < p.start + p.count && MapBlock(Unmap(b, p), p) == b
  {
    hide MapSeed;
    hide PrngStep;
    hide NatOf;
    var p := BuildMapParams(textStart, textEnd, epoch);
    if p.count > 1 {
      SearchIsCoprime(FirstCandidate(NatOf(MapSeed(textStart, textEnd, epoch)), p.count), p.count, p.count + 8);
      hide BuildMapParams;
      AffineOnto(p.mul, p.add, b - p.start, p.count);
    }
  }

  lemma AffineOnto(mul: nat, add: nat, y: nat, n: nat)
    requires n > 0 && Gcd(mul, n) == 1 && y < n
    ensures (mul * ((Bezout(mul, n).0 * (y - add)) % n) + add) % n == y
  {
    AffineInverse(mul, add, y, n, Bezout(mul, n).0, Bezout(mul, n).1);
  }

  lemma AffineInverse(mul: nat, add: nat, y: nat, n: nat, s: int, t: int)
    requires s * mul + t * n == 1 && y < n
    ensures (mul * ((s * (y - add)) % n) + add) % n == y
  {
    var e := s * (y - add);
    var x, q := e % n, e / n;
    assert e == n * q + x;
    Recombine(s, mul, t, n, y - add, q, x);
    DividesOnce(mul * x + add, n, -(t * (y - add)) - mul * q, y);
  }

  lemma Recombine(s: int, mul: int, t: int, n: int, w: int, q: int, x: int)
    requires s * mul + t * n == 1 && s * w == n * q + x
    ensures mul * x == n * (-(t * w) - mul * q) + w
  {
    assert mul * x == mul * (s * w) - mul * (n * q);
    assert mul * (s * w) == (s * mul) * w;
    assert (1 - t * n) * w == w - n * (t * w);
    assert mul * (n * q) == n * (mul * q);
    assert n * (-(t * w) - mul * q) == -(n * (t * w)) - n * (mul * q);
  }
}
