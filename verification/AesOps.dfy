/** AES-128 on byte arrays, in place, as the CPU's cipher routines work. */
module AesOps {
  import opened Words
  import opened AesTables
  import opened Aes

  ghost predicate Square(s: array2<bv8>) { s.Length0 == 4 && s.Length1 == 4 }

  function ColumnAt(s: array2<bv8>, c: nat): Column
    requires Square(s) && c < 4
    reads s
  {
    Column(s[0, c], s[1, c], s[2, c], s[3, c])
  }

  /** The state in the array: row first, column second. */
  function Grid(s: array2<bv8>): State
    requires Square(s)
    reads s
  {
    State(ColumnAt(s, 0), ColumnAt(s, 1), ColumnAt(s, 2), ColumnAt(s, 3))
  }

  function Col(s: State, c: nat): Column
    requires c < 4
  {
    if c == 0 then s.c0 else if c == 1 then s.c1 else if c == 2 then s.c2 else s.c3
  }

  method AddKey(s: array2<bv8>, k: State)
    requires Square(s)
    modifies s
    ensures Grid(s) == AddRoundKey(old(Grid(s)), k)
  {
    for c := 0 to 4
      invariant forall j :: 0 <= j < 4 ==> ColumnAt(s, j) == if j < c then XorColumn(old(ColumnAt(s, j)), Col(k, j)) else old(ColumnAt(s, j))
    {
      var col := Col(k, c);
      s[0, c] := s[0, c] ^ col.b0;
      s[1, c] := s[1, c] ^ col.b1;
      s[2, c] := s[2, c] ^ col.b2;
      s[3, c] := s[3, c] ^ col.b3;
    }
  }

  method Substitute(s: array2<bv8>)
    requires Square(s)
    modifies s
    ensures Grid(s) == SubBytes(old(Grid(s)))
  {
    hide SBox;
    for i := 0 to 4
      invariant forall r, c :: 0 <= r < 4 && 0 <= c < 4 ==> s[r, c] == if r < i then SBox(old(s[r, c])) else old(s[r, c])
    {
      for j := 0 to 4
        invariant forall r, c :: 0 <= r < 4 && 0 <= c < 4 ==>
          s[r, c] == if r < i || (r == i && c < j) then SBox(old(s[r, c])) else old(s[r, c])
      {
        s[i, j] := SBox(s[i, j]);
      }
    }
  }

  method InvSubstitute(s: array2<bv8>)
    requires Square(s)
    modifies s
    ensures Grid(s) == InvSubBytes(old(Grid(s)))
  {
    hide InvSBox;
    for i := 0 to 4
      invariant forall r, c :: 0 <= r < 4 && 0 <= c < 4 ==> s[r, c] == if r < i then InvSBox(old(s[r, c])) else old(s[r, c])
    {
      for j := 0 to 4
        invariant forall r, c :: 0 <= r < 4 && 0 <= c < 4 ==>
          s[r, c] == if r < i || (r == i && c < j) then InvSBox(old(s[r, c])) else old(s[r, c])
      {
        s[i, j] := InvSBox(s[i, j]);
      }
    }
  }

  method RotateRow1(s: array2<bv8>)
    requires Square(s)
    modifies s
    ensures forall r, c :: 0 <= r < 4 && 0 <= c < 4 ==> s[r, c] == if r == 1 then old(s[1, (c + 1) % 4]) else old(s[r, c])
  {
    var tmp := s[1, 0];
    s[1, 0] := s[1, 1];
    s[1, 1] := s[1, 2];
    s[1, 2] := s[1, 3];
    s[1, 3] := tmp;
  }

  method SwapRow2(s: array2<bv8>)
    requires Square(s)
    modifies s
    ensures forall r, c :: 0 <= r < 4 && 0 <= c < 4 ==> s[r, c] == if r == 2 then old(s[2, (c + 2) % 4]) else old(s[r, c])
  {
    var tmp := s[2, 0];
    s[2, 0] := s[2, 2];
    s[2, 2] := tmp;
    tmp := s[2, 1];
    s[2, 1] := s[2, 3];
    s[2, 3] := tmp;
  }

  method RotateRow3(s: array2<bv8>)
    requires Square(s)
    modifies s
    ensures forall r, c :: 0 <= r < 4 && 0 <= c < 4 ==> s[r, c] == if r == 3 then old(s[3, (c + 3) % 4]) else old(s[r, c])
  {
    var tmp := s[3, 3];
    s[3, 3] := s[3, 2];
    s[3, 2] := s[3, 1];
    s[3, 1] := s[3, 0];
    s[3, 0] := tmp;
  }

  method BackRow1(s: array2<bv8>)
    requires Square(s)
    modifies s
    ensures forall r, c :: 0 <= r < 4 && 0 <= c < 4 ==> s[r, c] == if r == 1 then old(s[1, (c + 3) % 4]) else old(s[r, c])
  {
    var tmp := s[1, 3];
    s[1, 3] := s[1, 2];
    s[1, 2] := s[1, 1];
    s[1, 1] := s[1, 0];
    s[1, 0] := tmp;
  }

  method BackRow3(s: array2<bv8>)
    requires Square(s)
    modifies s
    ensures forall r, c :: 0 <= r < 4 && 0 <= c < 4 ==> s[r, c] == if r == 3 then old(s[3, (c + 1) % 4]) else old(s[r, c])
  {
    var tmp := s[3, 0];
    s[3, 0] := s[3, 1];
    s[3, 1] := s[3, 2];
    s[3, 2] := s[3, 3];
    s[3, 3] := tmp;
  }

  method Shift(s: array2<bv8>)
    requires Square(s)
    modifies s
    ensures Grid(s) == ShiftRows(old(Grid(s)))
  {
    RotateRow1(s);
    SwapRow2(s);
    RotateRow3(s);
  }

  method InvShift(s: array2<bv8>)
    requires Square(s)
    modifies s
    ensures Grid(s) == InvShiftRows(old(Grid(s)))
  {
    BackRow1(s);
    SwapRow2(s);
    BackRow3(s);
  }

  method MixOne(s: array2<bv8>, c: nat)
    requires Square(s) && c < 4
    modifies s
    ensures ColumnAt(s, c) == MixColumn(old(ColumnAt(s, c)))
    ensures forall j :: 0 <= j < 4 && j != c ==> ColumnAt(s, j) == old(ColumnAt(s, j))
  {
    hide Mix;
    var a0, a1, a2, a3 := s[0, c], s[1, c], s[2, c], s[3, c];
    s[0, c] := Mix(a0, a1, a2, a3);
    s[1, c] := Mix(a1, a2, a3, a0);
    s[2, c] := Mix(a2, a3, a0, a1);
    s[3, c] := Mix(a3, a0, a1, a2);
  }

  method InvMixOne(s: array2<bv8>, c: nat)
    requires Square(s) && c < 4
    modifies s
    ensures ColumnAt(s, c) == InvMixColumn(old(ColumnAt(s, c)))
    ensures forall j :: 0 <= j < 4 && j != c ==> ColumnAt(s, j) == old(ColumnAt(s, j))
  {
    hide Unmix;
    var a0, a1, a2, a3 := s[0, c], s[1, c], s[2, c], s[3, c];
    s[0, c] := Unmix(a0, a1, a2, a3);
    s[1, c] := Unmix(a1, a2, a3, a0);
    s[2, c] := Unmix(a2, a3, a0, a1);
    s[3, c] := Unmix(a3, a0, a1, a2);
  }

  method MixAll(s: array2<bv8>)
    requires Square(s)
    modifies s
    ensures Grid(s) == MixColumns(old(Grid(s)))
  {
    hide MixColumn;
    for c := 0 to 4
      invariant forall j :: 0 <= j < 4 ==> ColumnAt(s, j) == if j < c then MixColumn(old(ColumnAt(s, j))) else old(ColumnAt(s, j))
    {
      MixOne(s, c);
    }
  }

  method InvMixAll(s: array2<bv8>)
    requires Square(s)
    modifies s
    ensures Grid(s) == InvMixColumns(old(Grid(s)))
  {
    hide InvMixColumn;
    for c := 0 to 4
      invariant forall j :: 0 <= j < 4 ==> ColumnAt(s, j) == if j < c then InvMixColumn(old(ColumnAt(s, j))) else old(ColumnAt(s, j))
    {
      InvMixOne(s, c);
    }
  }

  // ------------------------------------------------------------------- key expansion

  function XorWord(a: Word, b: Word): Word { a ^ b }

  lemma XorWords(a: Word, b: Word)
    ensures ColumnOf(XorWord(a, b)) == XorColumn(ColumnOf(a), ColumnOf(b))
  {
  }

  function Rotate(t: Word): Word { (t << 8) | (t >> 24) }

  function SubWord(u: Word): Word { Compose(SBox(Byte(u, 24)), SBox(Byte(u, 16)), SBox(Byte(u, 8)), SBox(Byte(u, 0))) }

  function ConstantWord(rcon: bv8): Word { (rcon as Word) << 24 }

  /** Rotating left by a byte, substituting every byte, and adding the constant to the first. */
  function Schedule(t: Word, rcon: bv8): Word { XorWord(SubWord(Rotate(t)), ConstantWord(rcon)) }

  lemma RotatedColumn(t: Word)
    ensures ColumnOf(Rotate(t)) == Column(Byte(t, 16), Byte(t, 8), Byte(t, 0), Byte(t, 24))
  {
  }

  lemma ConstantColumn(rcon: bv8)
    ensures ColumnOf(ConstantWord(rcon)) == Column(rcon, 0, 0, 0)
  {
  }

  lemma AddConstant(c: Column, rcon: bv8)
    ensures XorColumn(c, Column(rcon, 0, 0, 0)) == c.(b0 := c.b0 ^ rcon)
  {
  }

  lemma SubstitutedColumn(u: Word)
    ensures ColumnOf(SubWord(u)) == SubColumn(ColumnOf(u))
  {
    hide SBox;
    hide Byte;
    hide Compose;
    ColumnRoundTrip(SubColumn(ColumnOf(u)));
  }

  lemma ScheduleIsCore(t: Word, rcon: bv8)
    ensures ColumnOf(Schedule(t, rcon)) == ScheduleCore(ColumnOf(t), rcon)
  {
    hide SBox;
    hide Byte;
    hide Rotate;
    hide SubWord;
    hide ConstantWord;
    hide XorWord;
    hide XorColumn;
    RotatedColumn(t);
    SubstitutedColumn(Rotate(t));
    XorWords(SubWord(Rotate(t)), ConstantWord(rcon));
    ConstantColumn(rcon);
    AddConstant(ColumnOf(SubWord(Rotate(t))), rcon);
  }

  /** The words of the schedule: word `4 * r + c` is column `c` of round key `r`. */
  ghost predicate Expanded(w: seq<Word>, key: State, n: nat)
    requires n <= |w|
  {
    forall j :: 0 <= j < n ==> ColumnOf(w[j]) == Col(RoundKey(key, j / 4), j % 4)
  }

  lemma NextWord(key: State, r: nat, c: nat, back: Word, last: Word)
    requires r > 0 && 0 < c < 4
    requires ColumnOf(back) == Col(RoundKey(key, r - 1), c) && ColumnOf(last) == Col(RoundKey(key, r), c - 1)
    ensures ColumnOf(XorWord(back, last)) == Col(RoundKey(key, r), c)
  {
    hide *;
    XorWords(back, last);
    KeyColumns(key, r, c);
  }

  lemma NextFirstWord(key: State, r: nat, back: Word, last: Word)
    requires r > 0
    requires ColumnOf(back) == Col(RoundKey(key, r - 1), 0) && ColumnOf(last) == Col(RoundKey(key, r - 1), 3)
    ensures ColumnOf(XorWord(back, Schedule(last, Rcon(r)))) == Col(RoundKey(key, r), 0)
  {
    hide ColumnOf;
    hide XorColumn;
    hide ScheduleCore;
    hide Schedule;
    hide XorWord;
    hide Rcon;
    ScheduleIsCore(last, Rcon(r));
    XorWords(back, Schedule(last, Rcon(r)));
  }

  /** A later column of a round key is the column before it plus the same column of the last round key. */
  lemma KeyColumns(key: State, r: nat, c: nat)
    requires r > 0 && 0 < c < 4
    ensures Col(RoundKey(key, r), c) == XorColumn(Col(RoundKey(key, r - 1), c), Col(RoundKey(key, r), c - 1))
  {
    hide ScheduleCore;
    hide XorColumn;
    hide Rcon;
  }

  method ExpandKey(key: Block) returns (w: array<Word>)
    ensures fresh(w) && w.Length == 44 && Expanded(w[..], StateOf(key), 44)
  {
    hide ColumnOf;
    hide Schedule;
    hide XorWord;
    hide RoundKey;
    hide Rcon;
    hide Col;
    w := new Word[44](_ => 0);
    w[0], w[1], w[2], w[3] := key.w0, key.w1, key.w2, key.w3;
    FirstWords(w[..], key);
    for i := 4 to 44
      invariant Expanded(w[..], StateOf(key), i)
    {
      var temp := w[i - 1];
      ghost var before := w[..];
      assert before[i - 4] == w[i - 4] && before[i - 1] == temp && (i - 4) / 4 == i / 4 - 1;
      if i % 4 == 0 {
        NextFirstWord(StateOf(key), i / 4, w[i - 4], temp);
        temp := Schedule(temp, Rcon(i / 4));
      } else {
        NextWord(StateOf(key), i / 4, i % 4, w[i - 4], temp);
      }
      w[i] := XorWord(w[i - 4], temp);
      assert w[..] == before[i := w[i]];
    }
  }

  lemma FirstWords(w: seq<Word>, key: Block)
    requires |w| == 44 && w[0] == key.w0 && w[1] == key.w1 && w[2] == key.w2 && w[3] == key.w3
    ensures Expanded(w, StateOf(key), 4)
  {
    hide ColumnOf;
  }

  function KeyAt(w: seq<Word>, r: nat): State
    requires |w| == 44 && r <= 10
  {
    State(ColumnOf(w[4 * r]), ColumnOf(w[4 * r + 1]), ColumnOf(w[4 * r + 2]), ColumnOf(w[4 * r + 3]))
  }

  lemma KeyColumnIs(w: seq<Word>, key: State, r: nat, c: nat)
    requires |w| == 44 && r <= 10 && c < 4 && Expanded(w, key, 44)
    ensures ColumnOf(w[4 * r + c]) == Col(RoundKey(key, r), c)
  {
    hide ColumnOf;
    hide RoundKey;
    hide Col;
    assert (4 * r + c) / 4 == r && (4 * r + c) % 4 == c;
  }

  lemma KeyAtIs(w: seq<Word>, key: State, r: nat)
    requires |w| == 44 && r <= 10 && Expanded(w, key, 44)
    ensures KeyAt(w, r) == RoundKey(key, r)
  {
    hide ColumnOf;
    hide RoundKey;
    hide Expanded;
    KeyColumnIs(w, key, r, 0);
    KeyColumnIs(w, key, r, 1);
    KeyColumnIs(w, key, r, 2);
    KeyColumnIs(w, key, r, 3);
  }

  // ----------------------------------------------------------------------- the blocks

  method LoadColumn(s: array2<bv8>, c: nat, w: Word)
    requires Square(s) && c < 4
    modifies s
    ensures ColumnAt(s, c) == ColumnOf(w)
    ensures forall j :: 0 <= j < 4 && j != c ==> ColumnAt(s, j) == old(ColumnAt(s, j))
  {
    hide Byte;
    s[0, c] := Byte(w, 24);
    s[1, c] := Byte(w, 16);
    s[2, c] := Byte(w, 8);
    s[3, c] := Byte(w, 0);
  }

  method Load(x: Block) returns (s: array2<bv8>)
    ensures fresh(s) && Square(s) && Grid(s) == StateOf(x)
  {
    hide ColumnOf;
    s := new bv8[4, 4]((_, _) => 0);
    LoadColumn(s, 0, x.w0);
    LoadColumn(s, 1, x.w1);
    LoadColumn(s, 2, x.w2);
    LoadColumn(s, 3, x.w3);
  }

  method EncryptBlock(input: Block, key: Block) returns (output: Block)
    ensures output == Encrypt(key, input)
  {
    hide StateOf;
    hide BlockOf;
    hide AddRoundKey;
    hide SubBytes;
    hide ShiftRows;
    hide MixColumns;
    hide RoundKey;
    hide KeyAt;
    var k := StateOf(key);
    var s := Load(input);
    var expanded := ExpandKey(key);
    var w := expanded[..];
    hide Expanded;
    hide Grid;
    KeyAtIs(w, k, 0);
    FirstKey(k);
    AddKey(s, KeyAt(w, 0));
    for round := 1 to 10
      invariant Grid(s) == Rounds(StateOf(input), k, round - 1)
    {
      Substitute(s);
      Shift(s);
      MixAll(s);
      KeyAtIs(w, k, round);
      AddKey(s, KeyAt(w, round));
    }
    Substitute(s);
    Shift(s);
    KeyAtIs(w, k, 10);
    AddKey(s, KeyAt(w, 10));
    output := BlockOf(Grid(s));
  }

  lemma FirstKey(k: State)
    ensures RoundKey(k, 0) == k
  {
  }

  method DecryptBlock(input: Block, key: Block) returns (output: Block)
    ensures output == Decrypt(key, input)
  {
    hide StateOf;
    hide BlockOf;
    hide AddRoundKey;
    hide InvSubBytes;
    hide InvShiftRows;
    hide InvMixColumns;
    hide RoundKey;
    hide KeyAt;
    var k := StateOf(key);
    var s := Load(input);
    var expanded := ExpandKey(key);
    var w := expanded[..];
    hide Expanded;
    hide Grid;
    KeyAtIs(w, k, 10);
    AddKey(s, KeyAt(w, 10));
    ghost var start := Grid(s);
    var round := 9;
    while round >= 1
      invariant 0 <= round <= 9
      invariant InvRounds(Grid(s), k, round) == InvRounds(start, k, 9)
    {
      InvShift(s);
      InvSubstitute(s);
      KeyAtIs(w, k, round);
      AddKey(s, KeyAt(w, round));
      InvMixAll(s);
      round := round - 1;
    }
    InvShift(s);
    InvSubstitute(s);
    KeyAtIs(w, k, 0);
    FirstKey(k);
    AddKey(s, KeyAt(w, 0));
    output := BlockOf(Grid(s));
  }
}
