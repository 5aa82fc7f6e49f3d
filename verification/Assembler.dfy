/**
 * The two-pass assembler, from parsed statements on: the first pass gives addresses to
 * statements and labels, the second emits words. Addresses are 32-bit byte addresses.
 */
module Assembler {
  import opened Words
  import opened Numbers
  import I = Isa

  const TEXT_BASE: nat := 0x0040_0000
  const DATA_BASE: nat := 0x1001_0000
  const AVAILABLE_WORDS: nat := 992
  const U32_MAX: nat := 0xFFFF_FFFF

  datatype Option<T> = None | Some(value: T)

  // --------------------------------------------------------------- parsed statements

  datatype Section = NoSection | Data | Text

  datatype Symbol = Symbol(address: nat, section: Section)

  type Symbols = map<string, Symbol>

  /** A number, or a name that may be a label. */
  datatype Value = Number(n: int) | Name(name: string)

  datatype RegOp = ADD | SUB | AND | OR | XOR | MULT | AESENC

  /** `Malformed` stands for wrong operands of any kind; whether the mnemonic was `la` decides its length. */
  datatype Instr =
    | Nop | La(rt: I.RegIndex, v: Value) | ThreeReg(op: RegOp, rd: I.RegIndex, rs: I.RegIndex, rt: I.RegIndex)
    | Shift(left: bool, rd: I.RegIndex, rt: I.RegIndex, sh: int) | AesDec(rd: I.RegIndex)
    | Addi(rt: I.RegIndex, rs: I.RegIndex, imm: int) | Lui(rt: I.RegIndex, v: Value)
    | Ori(rt: I.RegIndex, rs: I.RegIndex, v: Value) | Mem(load: bool, rt: I.RegIndex, off: int, rs: I.RegIndex)
    | Branch(eq: bool, rs: I.RegIndex, rt: I.RegIndex, dest: string) | Jump(dest: string) | Malformed(la: bool)

  datatype Item =
    | Label(name: string) | BadLabel | DataSection(args: nat) | TextSection(args: nat) | Globl(args: nat)
    | WordList(vals: seq<Value>) | Space(vals: seq<Value>) | OtherDirective | Instruction(i: Instr)

  datatype Statement = Statement(section: Section, address: nat, item: Item)

  // ------------------------------------------------------------------ the first pass

  datatype First = First(section: Section, data: nat, text: nat, out: seq<Statement>, syms: Symbols) {
    function Here(): nat { if section == Data then data else text }

    function Put(item: Item): First { this.(out := out + [Statement(section, Here(), item)]) }

    function Move(address: nat): First { if section == Data then this.(data := address) else this.(text := address) }
  }

  const START: First := First(NoSection, DATA_BASE, TEXT_BASE, [], map[])

  function U32(n: nat): nat { n % 0x1_0000_0000 }

  /** A sum that must not overflow. */
  function CheckedAdd(a: nat, b: nat): Option<nat> { if a + b > U32_MAX then None else Some(a + b) }

  function Advanced(s: First, item: Item, bytes: nat): Option<First> {
    match CheckedAdd(s.Here(), bytes)
    case None => None
    case Some(a) => Some(s.Put(item).Move(a))
  }

  function WordCount(i: Instr): nat { if i.La? || (i.Malformed? && i.la) then 2 else 1 }

  /** The size of a reservation, if it is one. */
  function SpaceBytes(vals: seq<Value>): Option<nat> {
    if |vals| == 1 && vals[0].Number? && 0 <= vals[0].n <= U32_MAX && vals[0].n % 4 == 0 then Some(vals[0].n) else None
  }

  function FirstStep(s: First, item: Item): Option<First> {
    match item
    case Label(name) =>
      if name in s.syms || s.section == NoSection then None
      else Some(s.(syms := s.syms[name := Symbol(s.Here(), s.section)]))
    case BadLabel => None
    case DataSection(args) => if args > 0 then None else Some(s.(section := Data).Put(item))
    case TextSection(args) => if args > 0 then None else Some(s.(section := Text).Put(item))
    case Globl(args) => if s.section == NoSection || args == 0 then None else Some(s.Put(item))
    case WordList(vals) =>
      if s.section == NoSection || vals == [] || s.Here() % 4 != 0 then None else Advanced(s, item, U32(4 * |vals|))
    case Space(vals) =>
      if s.section == NoSection then None
      else (match SpaceBytes(vals) case None => None case Some(n) => Advanced(s, item, n))
    case OtherDirective => None
    case Instruction(i) => if s.section != Text then None else Advanced(s, item, 4 * WordCount(i))
  }

  /** The state after the first `n` items. */
  function FirstRun(items: seq<Item>, n: nat): Option<First>
    requires n <= |items|
  {
    if n == 0 then Some(START)
    else match FirstRun(items, n - 1)
      case None => None
      case Some(s) => FirstStep(s, items[n - 1])
  }

  method FirstPass(items: seq<Item>) returns (r: Option<First>)
    ensures r == FirstRun(items, |items|)
  {
    hide FirstStep;
    var s, k := START, 0;
    while k < |items|
      invariant k <= |items| && FirstRun(items, k) == Some(s)
    {
      match FirstStep(s, items[k]) {
        case None =>
          FailureStays(items, k + 1, |items|);
          return None;
        case Some(t) =>
          s := t;
      }
      k := k + 1;
    }
    return Some(s);
  }

  lemma {:induction false} FailureStays(items: seq<Item>, k: nat, n: nat)
    requires k <= n <= |items| && FirstRun(items, k) == None
    ensures FirstRun(items, n) == None
  {
    hide FirstStep;
    if k < n { FailureStays(items, k, n - 1); }
  }

  // ---------------------------------------------------------------------- encodings

  function R5(r: I.RegIndex): bv5 { r as bv5 }

  function RBits(s: bv5, t: bv5, d: bv5, sh: bv5, fn: Word): Word {
    ((s as bv32) << 21) | ((t as bv32) << 16) | ((d as bv32) << 11) | ((sh as bv32) << 6) | (fn & 0x3F)
  }

  function IBits(op: Word, s: bv5, t: bv5, imm: bv16): Word {
    ((op & 0x3F) << 26) | ((s as bv32) << 21) | ((t as bv32) << 16) | (imm as bv32)
  }

  function JBits(op: Word, target: Word): Word { ((op & 0x3F) << 26) | (target & 0x03FF_FFFF) }

  function ByteOf(n: nat): bv8 { (n % 0x100) as bv8 }

  /** The low 16 bits of a number, in two's complement. */
  function HalfOf(x: int): bv16 { Join(ByteOf(x % 0x1_0000 / 0x100), ByteOf(x % 0x1_0000)) }

  function Join(high: bv8, low: bv8): bv16 { ((high as bv16) << 8) | (low as bv16) }

  function EncodeR(rs: I.RegIndex, rt: I.RegIndex, rd: I.RegIndex, sh: I.RegIndex, fn: Word): Word {
    RBits(R5(rs), R5(rt), R5(rd), R5(sh), fn)
  }

  function EncodeI(op: Word, rs: I.RegIndex, rt: I.RegIndex, imm: int): Word { IBits(op, R5(rs), R5(rt), HalfOf(imm)) }

  function FunctOf(op: RegOp): Word {
    match op
    case ADD => I.FN_ADD
    case SUB => I.FN_SUB
    case AND => I.FN_AND
    case OR => I.FN_OR
    case XOR => I.FN_XOR
    case MULT => I.FN_MULT
    case AESENC => I.FN_AESENC
  }

  /** A value as 32 bits: a label's address, or a number that fits. */
  function Resolve(syms: Symbols, v: Value): (r: Option<nat>)
    ensures r.Some? && v.Number? ==> r.value <= U32_MAX
  {
    match v
    case Number(n) => if -0x8000_0000 <= n <= U32_MAX then Some(n % 0x1_0000_0000) else None
    case Name(name) => if name in syms then Some(syms[name].address) else None
  }

  /** A jump or branch target must be a text label at the start of a block of four instructions. */
  function TargetOf(syms: Symbols, dest: string): Option<nat> {
    if dest in syms && syms[dest].section == Text && syms[dest].address >= TEXT_BASE &&
       (syms[dest].address - TEXT_BASE) % 16 == 0 then Some(syms[dest].address)
    else None
  }

  function EncodeValue(op: Word, rs: I.RegIndex, rt: I.RegIndex, v: Option<nat>): Option<seq<Word>> {
    match v
    case None => None
    case Some(n) => if n > 0xFFFF then None else Some([EncodeI(op, rs, rt, n)])
  }

  function EncodeBranch(address: nat, eq: bool, rs: I.RegIndex, rt: I.RegIndex, target: Option<nat>): Option<seq<Word>> {
    match target
    case None => None
    case Some(t) =>
      var delta := t - (address + 4);
      if delta % 4 != 0 || delta / 4 < -32768 || delta / 4 > 32767 then None
      else Some([EncodeI(if eq then I.OP_BEQ else I.OP_BNE, rs, rt, delta / 4)])
  }

  function Encode(syms: Symbols, address: nat, i: Instr): Option<seq<Word>> {
    match i
    case Nop => Some([0])
    case La(rt, v) =>
      (match Resolve(syms, v)
       case None => None
       case Some(n) => Some([EncodeI(I.OP_LUI, 0, rt, n / 0x1_0000), EncodeI(I.OP_ORI, rt, rt, n)]))
    case ThreeReg(op, rd, rs, rt) => Some([EncodeR(rs, rt, rd, 0, FunctOf(op))])
    case Shift(left, rd, rt, sh) =>
      if 0 <= sh <= 31 then Some([EncodeR(0, rt, rd, sh, if left then I.FN_SLL else I.FN_SRL)]) else None
    case AesDec(rd) => Some([EncodeR(0, 0, rd, 0, I.FN_AESDEC)])
    case Addi(rt, rs, imm) => if -32768 <= imm <= 32767 then Some([EncodeI(I.OP_ADDI, rs, rt, imm)]) else None
    case Lui(rt, v) => EncodeValue(I.OP_LUI, 0, rt, Resolve(syms, v))
    case Ori(rt, rs, v) => EncodeValue(I.OP_ORI, rs, rt, Resolve(syms, v))
    case Mem(load, rt, off, rs) =>
      if -32768 <= off <= 32767 && off % 4 == 0 then Some([EncodeI(if load then I.OP_LW else I.OP_SW, rs, rt, off)])
      else None
    case Branch(eq, rs, rt, dest) => EncodeBranch(address, eq, rs, rt, TargetOf(syms, dest))
    case Jump(dest) =>
      (match TargetOf(syms, dest) case None => None case Some(t) => Some([JBits(I.OP_J, WordOf(t / 4))]))
    case Malformed(_) => None
  }

  // ----------------------------------------------------------------- the second pass

  datatype Second = Second(text: seq<Word>, cursor: nat, data: map<nat, Word>)

  const EMPTY: Second := Second([], DATA_BASE, map[])

  /** The first `n` words of a list. */
  function EmitWords(syms: Symbols, s: Second, section: Section, vals: seq<Value>, n: nat): Option<Second>
    requires n <= |vals|
  {
    if n == 0 then Some(s)
    else match EmitWords(syms, s, section, vals, n - 1)
      case None => None
      case Some(t) => EmitWord(syms, t, section, vals[n - 1])
  }

  function EmitWord(syms: Symbols, s: Second, section: Section, v: Value): Option<Second> {
    match Resolve(syms, v)
    case None => None
    case Some(n) =>
      if section == Data then
        (if s.cursor % 4 != 0 then None else Some(s.(data := s.data[s.cursor := WordOf(n)], cursor := U32(s.cursor + 4))))
      else if section == Text then Some(s.(text := s.text + [WordOf(n)]))
      else Some(s)
  }

  function EmitSpace(s: Second, section: Section, vals: seq<Value>): Option<Second> {
    match SpaceBytes(vals)
    case None => None
    case Some(n) =>
      if section == Data then Some(s.(cursor := U32(s.cursor + n)))
      else if section == Text then Some(s.(text := s.text + seq(n / 4, _ => 0)))
      else Some(s)
  }

  function SecondStep(syms: Symbols, s: Second, st: Statement): Option<Second> {
    match st.item
    case DataSection(_) => Some(s)
    case TextSection(_) => Some(s)
    case Globl(_) => Some(s)
    case WordList(vals) => EmitWords(syms, s, st.section, vals, |vals|)
    case Space(vals) => EmitSpace(s, st.section, vals)
    case Instruction(i) =>
      (match Encode(syms, st.address, i) case None => None case Some(ws) => Some(s.(text := s.text + ws)))
    case Label(_) => None
    case BadLabel => None
    case OtherDirective => None
  }

  function SecondRun(syms: Symbols, sts: seq<Statement>, n: nat): Option<Second>
    requires n <= |sts|
  {
    if n == 0 then Some(EMPTY)
    else match SecondRun(syms, sts, n - 1)
      case None => None
      case Some(s) => SecondStep(syms, s, sts[n - 1])
  }

  /** The data image: what the cursor has passed, with zeros where nothing was placed. */
  function DataWords(s: Second): (d: seq<Word>)
    ensures |d| == if s.cursor < DATA_BASE then 0 else (s.cursor - DATA_BASE + 3) / 4
  {
    var end := if s.cursor < DATA_BASE then DATA_BASE else s.cursor;
    seq((end - DATA_BASE + 3) / 4, i requires 0 <= i =>
      if DATA_BASE + 4 * i in s.data then s.data[DATA_BASE + 4 * i] else 0)
  }

  method SecondPass(syms: Symbols, sts: seq<Statement>) returns (r: Option<Second>)
    ensures r == SecondRun(syms, sts, |sts|)
  {
    hide SecondStep;
    var s, k := EMPTY, 0;
    while k < |sts|
      invariant k <= |sts| && SecondRun(syms, sts, k) == Some(s)
    {
      match SecondStep(syms, s, sts[k]) {
        case None =>
          SecondFailureStays(syms, sts, k + 1, |sts|);
          return None;
        case Some(t) =>
          s := t;
      }
      k := k + 1;
    }
    return Some(s);
  }

  lemma {:induction false} SecondFailureStays(syms: Symbols, sts: seq<Statement>, k: nat, n: nat)
    requires k <= n <= |sts| && SecondRun(syms, sts, k) == None
    ensures SecondRun(syms, sts, n) == None
  {
    hide SecondStep;
    if k < n { SecondFailureStays(syms, sts, k, n - 1); }
  }

  /** The data words one by one, looked up in the map. */
  method CollectData(s: Second) returns (d: seq<Word>)
    ensures d == DataWords(s)
  {
    var end := if s.cursor < DATA_BASE then DATA_BASE else s.cursor;
    var count := (end - DATA_BASE + 3) / 4;
    d := [];
    while |d| < count
      invariant |d| <= count && d == DataWords(s)[..|d|]
    {
      var address := DATA_BASE + 4 * |d|;
      d := d + [if address in s.data then s.data[address] else 0];
    }
  }

  function Padded(words: nat): nat { (words + 3) / 4 * 4 }

  predicate SizeOk(text: seq<Word>, data: seq<Word>) {
    text != [] && Padded(|text|) + Padded(|data|) <= AVAILABLE_WORDS
  }

  datatype Program = Program(text: seq<Word>, data: seq<Word>)

  function Assemble(items: seq<Item>): Option<Program> {
    match FirstRun(items, |items|)
    case None => None
    case Some(f) =>
      match SecondRun(f.syms, f.out, |f.out|)
      case None => None
      case Some(s) => if SizeOk(s.text, DataWords(s)) then Some(Program(s.text, DataWords(s))) else None
  }

  method AssembleProgram(items: seq<Item>) returns (r: Option<Program>)
    ensures r == Assemble(items)
  {
    hide FirstStep;
    hide SecondStep;
    hide DataWords;
    hide SizeOk;
    var f := FirstPass(items);
    if f == None { return None; }
    var s := SecondPass(f.value.syms, f.value.out);
    if s == None { return None; }
    var data := CollectData(s.value);
    if !SizeOk(s.value.text, data) { return None; }
    return Some(Program(s.value.text, data));
  }
}
