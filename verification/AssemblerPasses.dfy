/** The two passes agree on every address, and branches, jumps and data land at their labels. */
module AssemblerPasses {
  import opened Words
  import opened Numbers
  import opened Assembler
  import opened AssemblerProof
  import I = Isa

  // ------------------------------------------------------------- one pass at a time

  predicate InBounds(s: First) {
    s.data % 4 == 0 && s.text % 4 == 0 && DATA_BASE <= s.data <= U32_MAX && TEXT_BASE <= s.text <= U32_MAX
  }

  /** The statement an item other than a label becomes. */
  function StatementOf(s: First, item: Item): Statement {
    if item.DataSection? then Statement(Data, s.data, item)
    else if item.TextSection? then Statement(Text, s.text, item)
    else Statement(s.section, s.Here(), item)
  }

  lemma U32Aligned(n: nat)
    ensures U32(4 * n) % 4 == 0
  {
  }

  lemma AdvancedBounds(s: First, item: Item, bytes: nat)
    requires InBounds(s) && bytes % 4 == 0 && Advanced(s, item, bytes).Some?
    ensures var t := Advanced(s, item, bytes).value; InBounds(t) && s.data <= t.data && s.text <= t.text
  {
  }

  /** No address moves backwards, out of 32 bits, or off its word. */
  lemma FirstBounds(s: First, item: Item)
    requires InBounds(s) && FirstStep(s, item).Some?
    ensures var t := FirstStep(s, item).value; InBounds(t) && s.data <= t.data && s.text <= t.text
  {
    hide U32;
    hide Advanced;
    if item.WordList? {
      U32Aligned(|item.vals|);
      AdvancedBounds(s, item, U32(4 * |item.vals|));
    } else if item.Space? {
      AdvancedBounds(s, item, SpaceBytes(item.vals).value);
    } else if item.Instruction? {
      AdvancedBounds(s, item, 4 * WordCount(item.i));
    }
  }

  lemma FirstStays(s: First, item: Item)
    requires InBounds(s) && FirstStep(s, item).Some?
    ensures var t := FirstStep(s, item).value;
      && InBounds(t) && s.data <= t.data && s.text <= t.text
      && (if item.Label? then t.out == s.out && t.syms == s.syms[item.name := Symbol(s.Here(), s.section)] && item.name !in s.syms
          else t.out == s.out + [StatementOf(s, item)] && t.syms == s.syms)
  {
    FirstBounds(s, item);
    hide InBounds;
    hide U32;
    hide CheckedAdd;
    hide SpaceBytes;
  }

  lemma {:induction false} FirstBefore(items: seq<Item>, j: nat, n: nat)
    requires j <= n <= |items| && FirstRun(items, n).Some?
    ensures FirstRun(items, j).Some?
    ensures var s, t := FirstRun(items, j).value, FirstRun(items, n).value;
      && InBounds(s) && InBounds(t) && |s.out| <= |t.out| && t.out[..|s.out|] == s.out
      && forall name :: name in s.syms ==> name in t.syms && t.syms[name] == s.syms[name]
    decreases n
  {
    hide FirstStep;
    hide InBounds;
    if n == 0 {
      StartInBounds();
    } else {
      FirstBefore(items, if j < n then j else n - 1, n - 1);
      FirstStays(FirstRun(items, n - 1).value, items[n - 1]);
    }
  }

  lemma StartInBounds()
    ensures InBounds(START)
  {
  }

  lemma EmitWordIs(syms: Symbols, s: Second, section: Section, v: Value)
    requires EmitWord(syms, s, section, v).Some?
    ensures var t := EmitWord(syms, s, section, v).value;
      && t.cursor == (if section == Data then U32(s.cursor + 4) else s.cursor)
      && |t.text| == |s.text| + (if section == Text then 1 else 0) && t.text[..|s.text|] == s.text
  {
    hide Resolve;
    hide WordOf;
    hide U32;
  }

  lemma U32Step(a: nat, b: nat, n: nat)
    requires n > 0 && b == U32(a + 4 * (n - 1))
    ensures U32(b + 4) == U32(a + 4 * n)
  {
  }

  lemma {:induction false} EmitWordsIs(syms: Symbols, s: Second, section: Section, vals: seq<Value>, n: nat)
    requires n <= |vals| && EmitWords(syms, s, section, vals, n).Some? && s.cursor <= U32_MAX
    ensures var t := EmitWords(syms, s, section, vals, n).value;
      && t.cursor == (if section == Data then U32(s.cursor + 4 * n) else s.cursor)
      && |t.text| == |s.text| + (if section == Text then n else 0) && t.text[..|s.text|] == s.text
  {
    hide EmitWord;
    hide U32;
    if n == 0 {
      U32Small(s.cursor);
    } else {
      var t := EmitWords(syms, s, section, vals, n - 1).value;
      EmitWordsIs(syms, s, section, vals, n - 1);
      EmitWordIs(syms, t, section, vals[n - 1]);
      if section == Data { U32Step(s.cursor, t.cursor, n); }
    }
  }

  lemma SecondStays(syms: Symbols, s: Second, st: Statement)
    requires s.cursor <= U32_MAX && SecondStep(syms, s, st).Some?
    ensures var t := SecondStep(syms, s, st).value; t.cursor <= U32_MAX && |s.text| <= |t.text| && t.text[..|s.text|] == s.text
  {
    hide Encode;
    hide Resolve;
    hide EmitWord;
    hide EmitWords;
    if st.item.WordList? { EmitWordsIs(syms, s, st.section, st.item.vals, |st.item.vals|); }
  }

  lemma {:induction false} SecondBefore(syms: Symbols, sts: seq<Statement>, k: nat, n: nat)
    requires k <= n <= |sts| && SecondRun(syms, sts, n).Some?
    ensures SecondRun(syms, sts, k).Some?
    ensures var s, t := SecondRun(syms, sts, k).value, SecondRun(syms, sts, n).value;
      s.cursor <= U32_MAX && t.cursor <= U32_MAX && |s.text| <= |t.text| && t.text[..|s.text|] == s.text
    decreases n
  {
    hide SecondStep;
    if n > 0 {
      SecondBefore(syms, sts, if k < n then k else n - 1, n - 1);
      SecondStays(syms, SecondRun(syms, sts, n - 1).value, sts[n - 1]);
    }
  }

  // ------------------------------------------------------------------ both together

  /** The second pass stands where the first stood: its cursor in the data, its words in the text. */
  predicate Synced(s: First, t: Second) {
    t.cursor == s.data && U32(TEXT_BASE + 4 * |t.text|) == s.text
  }

  lemma U32Adds(a: nat, b: nat, n: nat)
    requires U32(a) == b && b + U32(4 * n) <= U32_MAX
    ensures U32(a + 4 * n) == b + U32(4 * n)
  {
  }

  lemma SyncWords(syms: Symbols, s: First, t: Second, vals: seq<Value>)
    requires InBounds(s) && Synced(s, t) && FirstStep(s, WordList(vals)).Some?
    requires EmitWords(syms, t, s.section, vals, |vals|).Some?
    ensures Synced(FirstStep(s, WordList(vals)).value, EmitWords(syms, t, s.section, vals, |vals|).value)
  {
    hide EmitWords;
    hide U32;
    hide Resolve;
    EmitWordsIs(syms, t, s.section, vals, |vals|);
    if s.section == Data {
      U32Small(t.cursor);
      U32Adds(t.cursor, s.data, |vals|);
    }
    else { U32Adds(TEXT_BASE + 4 * |t.text|, s.text, |vals|); }
  }

  lemma U32Small(n: nat)
    requires n <= U32_MAX
    ensures U32(n) == n
  {
  }

  lemma SyncSpace(s: First, t: Second, vals: seq<Value>)
    requires InBounds(s) && Synced(s, t) && FirstStep(s, Space(vals)).Some? && EmitSpace(t, s.section, vals).Some?
    ensures Synced(FirstStep(s, Space(vals)).value, EmitSpace(t, s.section, vals).value)
  {
    var n := SpaceBytes(vals).value;
    U32Small(n);
    if s.section == Data { U32Adds(t.cursor, s.data, n / 4); }
    else { U32Adds(TEXT_BASE + 4 * |t.text|, s.text, n / 4); }
    hide U32;
  }

  lemma SyncInstruction(syms: Symbols, s: First, t: Second, i: Instr)
    requires InBounds(s) && Synced(s, t) && FirstStep(s, Instruction(i)).Some? && Encode(syms, s.text, i).Some?
    ensures Synced(FirstStep(s, Instruction(i)).value, t.(text := t.text + Encode(syms, s.text, i).value))
  {
    EncodesAsWritten(syms, s.text, i);
    U32Small(4 * WordCount(i));
    U32Adds(TEXT_BASE + 4 * |t.text|, s.text, WordCount(i));
    hide Encode;
    hide U32;
    hide WordCount;
  }

  /** One statement moves both passes on alike. */
  lemma SyncStep(syms: Symbols, s: First, t: Second, item: Item)
    requires InBounds(s) && Synced(s, t) && FirstStep(s, item).Some? && !item.Label?
    requires SecondStep(syms, t, StatementOf(s, item)).Some?
    ensures Synced(FirstStep(s, item).value, SecondStep(syms, t, StatementOf(s, item)).value)
  {
    match item
    case DataSection(_) =>
    case TextSection(_) =>
    case Globl(_) =>
    case WordList(vals) => SyncWords(syms, s, t, vals);
    case Space(vals) => SyncSpace(s, t, vals);
    case Instruction(i) => SyncInstruction(syms, s, t, i);
  }

  /** After any items, with the second pass run over their statements under any symbols. */
  lemma {:induction false} PassesSynced(items: seq<Item>, j: nat, syms: Symbols, sts: seq<Statement>)
    requires j <= |items| && FirstRun(items, j).Some?
    requires var f := FirstRun(items, j).value; |f.out| <= |sts| && sts[..|f.out|] == f.out && SecondRun(syms, sts, |f.out|).Some?
    ensures var f := FirstRun(items, j).value; InBounds(f) && Synced(f, SecondRun(syms, sts, |f.out|).value)
    decreases j
  {
    hide FirstStep;
    hide SecondStep;
    hide InBounds;
    if j == 0 {
      StartInBounds();
    } else {
      var s, item := FirstRun(items, j - 1).value, items[j - 1];
      FirstBefore(items, j - 1, j);
      FirstStays(s, item);
      SecondBefore(syms, sts, |s.out|, |FirstRun(items, j).value.out|);
      PassesSynced(items, j - 1, syms, sts);
      if item.Label? {
        LabelMovesNothing(s, item);
      } else {
        SyncStep(syms, s, SecondRun(syms, sts, |s.out|).value, item);
      }
    }
    hide Synced;
  }

  lemma LabelMovesNothing(s: First, item: Item)
    requires item.Label? && FirstStep(s, item).Some?
    ensures FirstStep(s, item).value == s.(syms := FirstStep(s, item).value.syms)
  {
  }

  // ------------------------------------------------------------- assembled programs

  /** The statements of a program that assembles, with their first-pass addresses. */
  ghost function Listing(items: seq<Item>): seq<Statement>
    requires Assemble(items).Some?
  {
    FirstRun(items, |items|).value.out
  }

  ghost function SymbolsOf(items: seq<Item>): Symbols
    requires Assemble(items).Some?
  {
    FirstRun(items, |items|).value.syms
  }

  /** What the second pass has emitted before statement `k`. */
  ghost function Before(items: seq<Item>, k: nat): Second
    requires Assemble(items).Some? && k <= |Listing(items)|
  {
    SecondBefore(SymbolsOf(items), Listing(items), k, |Listing(items)|);
    SecondRun(SymbolsOf(items), Listing(items), k).value
  }

  /** How many statements come before item `j`. */
  ghost function StatementsBefore(items: seq<Item>, j: nat): (k: nat)
    requires Assemble(items).Some? && j <= |items|
    ensures k <= |Listing(items)|
  {
    FirstBefore(items, j, |items|);
    |FirstRun(items, j).value.out|
  }

  lemma BothRan(items: seq<Item>)
    requires Assemble(items).Some?
    ensures FirstRun(items, |items|).Some?
    ensures SecondRun(SymbolsOf(items), Listing(items), |Listing(items)|).Some?
    ensures var s := SecondRun(SymbolsOf(items), Listing(items), |Listing(items)|).value;
      Assemble(items).value.text == s.text && |s.text| <= AVAILABLE_WORDS && Assemble(items).value.data == DataWords(s)
  {
    hide FirstRun;
    hide SecondRun;
    hide DataWords;
  }

  lemma BeforeGrows(items: seq<Item>, k: nat)
    requires Assemble(items).Some? && k <= |Listing(items)|
    ensures var s, text := Before(items, k), Assemble(items).value.text;
      |s.text| <= |text| <= AVAILABLE_WORDS && text[..|s.text|] == s.text
  {
    hide Assemble;
    hide FirstRun;
    hide SecondRun;
    hide DataWords;
    BothRan(items);
    SecondBefore(SymbolsOf(items), Listing(items), k, |Listing(items)|);
  }

  lemma TextFits(n: nat)
    requires n <= AVAILABLE_WORDS
    ensures U32(TEXT_BASE + 4 * n) == TEXT_BASE + 4 * n
  {
  }

  /** At every item the addresses of the first pass are where the second pass will stand. */
  lemma PositionsAgree(items: seq<Item>, j: nat)
    requires Assemble(items).Some? && j <= |items|
    ensures FirstRun(items, j).Some? && InBounds(FirstRun(items, j).value)
    ensures var f, s := FirstRun(items, j).value, Before(items, StatementsBefore(items, j));
      f.data == s.cursor && f.text == TEXT_BASE + 4 * |s.text|
  {
    hide Assemble;
    hide FirstRun;
    hide SecondRun;
    hide InBounds;
    hide U32;
    hide DataWords;
    BothRan(items);
    FirstBefore(items, j, |items|);
    var k := StatementsBefore(items, j);
    SecondBefore(SymbolsOf(items), Listing(items), k, |Listing(items)|);
    PassesSynced(items, j, SymbolsOf(items), Listing(items));
    BeforeGrows(items, k);
    TextFits(|Before(items, k).text|);
  }

  /** The item a statement was made of. */
  lemma {:induction false} StatementFrom(items: seq<Item>, n: nat, k: nat) returns (j: nat)
    requires n <= |items| && FirstRun(items, n).Some? && k < |FirstRun(items, n).value.out|
    ensures j < n && FirstRun(items, j).Some? && FirstRun(items, j + 1).Some? && !items[j].Label?
    ensures var s := FirstRun(items, j).value;
      |s.out| == k && FirstRun(items, n).value.out[k] == StatementOf(s, items[j])
    decreases n
  {
    hide FirstStep;
    hide StatementOf;
    FirstBefore(items, n - 1, n);
    var s := FirstRun(items, n - 1).value;
    FirstStays(s, items[n - 1]);
    if k < |s.out| { j := StatementFrom(items, n - 1, k); } else { j := n - 1; }
  }

  /**
   * In every program that assembles, each statement's first-pass address is where the
   * second pass emits it.
   */
  lemma AddressesAgree(items: seq<Item>, k: nat)
    requires Assemble(items).Some? && k < |Listing(items)|
    ensures var st, s := Listing(items)[k], Before(items, k);
      st.address == if st.section == Data then s.cursor else TEXT_BASE + 4 * |s.text|
  {
    hide FirstRun;
    hide SecondRun;
    hide Assemble;
    hide InBounds;
    hide DataWords;
    BothRan(items);
    var j := StatementFrom(items, |items|, k);
    PositionsAgree(items, j);
  }

  /** The words of an instruction are in the program at its address. */
  lemma InstructionPlaced(items: seq<Item>, k: nat)
    requires Assemble(items).Some? && k < |Listing(items)| && Listing(items)[k].item.Instruction?
    ensures var st, p := Listing(items)[k], |Before(items, k).text|;
      var ws := Encode(SymbolsOf(items), TEXT_BASE + 4 * p, st.item.i);
      && ws.Some? && st.address == TEXT_BASE + 4 * p
      && p + |ws.value| <= |Assemble(items).value.text| && Assemble(items).value.text[p..p + |ws.value|] == ws.value
  {
    hide Assemble;
    hide Encode;
    hide FirstRun;
    hide FirstStep;
    hide StatementOf;
    hide DataWords;
    BothRan(items);
    var j := StatementFrom(items, |items|, k);
    StepIs(items, j);
    StatementHasItem(FirstRun(items, j).value, items[j]);
    InstructionsAreText(FirstRun(items, j).value, items[j]);
    AddressesAgree(items, k);
    Emitted(items, k);
    BeforeGrows(items, k + 1);
    hide SecondRun;
    var t, u := Before(items, k + 1).text, Assemble(items).value.text;
    assert u[..|t|] == t;
  }

  lemma StatementHasItem(s: First, item: Item)
    ensures StatementOf(s, item).item == item
  {
  }

  lemma InstructionsAreText(s: First, item: Item)
    requires item.Instruction? && FirstStep(s, item).Some?
    ensures StatementOf(s, item).section == Text
  {
  }

  /** What an instruction statement adds to the text. */
  lemma Emitted(items: seq<Item>, k: nat)
    requires Assemble(items).Some? && k < |Listing(items)| && Listing(items)[k].item.Instruction?
    ensures var ws := Encode(SymbolsOf(items), Listing(items)[k].address, Listing(items)[k].item.i);
      ws.Some? && Before(items, k + 1).text == Before(items, k).text + ws.value
  {
    hide Assemble;
    hide Encode;
    hide FirstRun;
    hide DataWords;
    BothRan(items);
    var syms, sts := SymbolsOf(items), Listing(items);
    SecondBefore(syms, sts, k + 1, |sts|);
    SecondBefore(syms, sts, k, k + 1);
    assert SecondRun(syms, sts, k + 1) == SecondStep(syms, Before(items, k), sts[k]);
  }

  // -------------------------------------------------------------------------- labels

  /** The label item that gave a name its symbol. */
  lemma {:induction false} SymbolFrom(items: seq<Item>, n: nat, name: string) returns (j: nat)
    requires n <= |items| && FirstRun(items, n).Some? && name in FirstRun(items, n).value.syms
    ensures j < n && items[j] == Label(name) && FirstRun(items, j).Some?
    ensures var s := FirstRun(items, j).value; FirstRun(items, n).value.syms[name] == Symbol(s.Here(), s.section)
    decreases n
  {
    hide FirstStep;
    FirstBefore(items, n - 1, n);
    var s := FirstRun(items, n - 1).value;
    FirstStays(s, items[n - 1]);
    if name in s.syms { j := SymbolFrom(items, n - 1, name); } else { j := n - 1; }
  }

  lemma BranchGoes(p: nat, l: nat, w: Word)
    requires l % 4 == 0 && I.SImm(w) == (TEXT_BASE + 4 * l - (TEXT_BASE + 4 * p + 4)) / 4
    ensures 4 * I.BranchTargetBlock(I.HEADER_WORDS + p, I.SImm(w)) == I.HEADER_WORDS + l
  {
    hide I.SImm;
  }

  lemma JumpGoes(l: nat, w: Word)
    requires l % 4 == 0 && I.Target(w) == (TEXT_BASE + 4 * l) / 4
    ensures 4 * I.JumpTargetBlock(w) == I.HEADER_WORDS + l
  {
    hide I.Target;
  }

  /**
   * Control goes where its label is: the block the CPU computes from an assembled branch
   * or jump, as it sits in memory behind the header, is the block that starts with the
   * first word emitted after the label.
   */
  lemma ControlLands(items: seq<Item>, k: nat, dest: string) returns (j: nat)
    requires Assemble(items).Some? && k < |Listing(items)| && Listing(items)[k].item.Instruction?
    requires var i := Listing(items)[k].item.i; (i.Branch? || i.Jump?) && i.dest == dest
    ensures j < |items| && items[j] == Label(dest)
    ensures var p, l := |Before(items, k).text|, |Before(items, StatementsBefore(items, j)).text|;
      && p < |Assemble(items).value.text| && l % 4 == 0
      && var w := Assemble(items).value.text[p];
        4 * (if I.IsJump(w) then I.JumpTargetBlock(w) else I.BranchTargetBlock(I.HEADER_WORDS + p, I.SImm(w)))
          == I.HEADER_WORDS + l
  {
    hide FirstRun;
    hide SecondRun;
    hide Assemble;
    hide Encode;
    hide InBounds;
    hide DataWords;
    hide TargetOf;
    hide I.JumpTargetBlock;
    hide I.BranchTargetBlock;
    hide I.IsJump;
    hide I.SImm;
    var i, syms, p := Listing(items)[k].item.i, SymbolsOf(items), |Before(items, k).text|;
    InstructionPlaced(items, k);
    EncodesAsWritten(syms, TEXT_BASE + 4 * p, i);
    var w := Assemble(items).value.text[p];
    assert w == Encode(syms, TEXT_BASE + 4 * p, i).value[0];
    HasTarget(syms, TEXT_BASE + 4 * p, i, dest);
    BothRan(items);
    j := SymbolFrom(items, |items|, dest);
    PositionsAgree(items, j);
    var l := |Before(items, StatementsBefore(items, j)).text|;
    BeforeGrows(items, StatementsBefore(items, j));
    LabelIsText(items, j, dest);
    TargetIs(syms, dest, l);
    if i.Branch? {
      BranchWord(syms, p, l, i, w);
      BranchGoes(p, l, w);
    } else {
      JumpWord(syms, TEXT_BASE + 4 * p, l, i, w);
      JumpGoes(l, w);
    }
  }

  lemma HasTarget(syms: Symbols, address: nat, i: Instr, dest: string)
    requires (i.Branch? || i.Jump?) && i.dest == dest && Encode(syms, address, i).Some?
    ensures TargetOf(syms, dest).Some? && dest in syms && syms[dest].section == Text
  {
  }

  lemma LabelIsText(items: seq<Item>, j: nat, dest: string)
    requires j < |items| && FirstRun(items, j).Some?
    ensures var s := FirstRun(items, j).value; s.section == Text ==> s.Here() == s.text
  {
    hide FirstRun;
  }

  lemma JumpWord(syms: Symbols, address: nat, l: nat, i: Instr, w: Word)
    requires i.Jump? && TargetOf(syms, i.dest) == Some(TEXT_BASE + 4 * l) && l <= AVAILABLE_WORDS
    requires Encode(syms, address, i).Some? && w == Encode(syms, address, i).value[0]
    ensures I.IsJump(w) && I.Target(w) == (TEXT_BASE + 4 * l) / 4
  {
    hide TargetOf;
    hide JBits;
    hide WordOf;
    hide I.Target;
    DecodesJ((TEXT_BASE + 4 * l) / 4);
  }

  lemma TargetIs(syms: Symbols, dest: string, l: nat)
    requires TargetOf(syms, dest).Some? && syms[dest].address == TEXT_BASE + 4 * l
    ensures l % 4 == 0 && TargetOf(syms, dest).value == TEXT_BASE + 4 * l
  {
  }

  lemma BranchWord(syms: Symbols, p: nat, l: nat, i: Instr, w: Word)
    requires i.Branch? && TargetOf(syms, i.dest) == Some(TEXT_BASE + 4 * l)
    requires Encode(syms, TEXT_BASE + 4 * p, i).Some? && w == Encode(syms, TEXT_BASE + 4 * p, i).value[0]
    ensures !I.IsJump(w) && I.SImm(w) == (TEXT_BASE + 4 * l - (TEXT_BASE + 4 * p + 4)) / 4
  {
    DecodesI(if i.eq then I.OP_BEQ else I.OP_BNE, i.rs, i.rt, (TEXT_BASE + 4 * l - (TEXT_BASE + 4 * p + 4)) / 4);
    hide EncodeI;
    hide I.SImm;
    hide TargetOf;
  }

  // ---------------------------------------------------------------------------- data

  /**
   * A data label names the place its words go to: where the second pass will stand, and
   * where the CPU finds a byte address of the data segment.
   */
  lemma DataLabelLands(items: seq<Item>, j: nat, name: string, c: I.Config)
    requires Assemble(items).Some? && j < |items| && items[j] == Label(name)
    requires FirstRun(items, j).Some? && FirstRun(items, j).value.section == Data
    ensures name in SymbolsOf(items)
    ensures var a, s := SymbolsOf(items)[name].address, Before(items, StatementsBefore(items, j));
      && a == s.cursor && a >= DATA_BASE && a % 4 == 0
      && (c.dataStart + (a - DATA_BASE) / 4 < I.MEM_WORDS ==> c.Translate(a) == I.Some(c.dataStart + (a - DATA_BASE) / 4))
  {
    hide Assemble;
    hide FirstRun;
    hide SecondRun;
    hide FirstStep;
    hide DataWords;
    BothRan(items);
    PositionsAgree(items, j);
    FirstBefore(items, j + 1, |items|);
    StepIs(items, j);
    FirstStays(FirstRun(items, j).value, items[j]);
  }

  lemma StepIs(items: seq<Item>, j: nat)
    requires j < |items| && FirstRun(items, j).Some? && FirstRun(items, j + 1).Some?
    ensures FirstStep(FirstRun(items, j).value, items[j]) == FirstRun(items, j + 1)
  {
    hide FirstStep;
  }

  /** The words of a data list stand in the data image from the address of the list on. */
  ghost predicate DataPlaced(items: seq<Item>, k: nat)
    requires Assemble(items).Some? && k < |Listing(items)| && Listing(items)[k].item.WordList?
  {
    var st, data := Listing(items)[k], Assemble(items).value.data;
    && st.address >= DATA_BASE && (st.address - DATA_BASE) / 4 + |st.item.vals| <= |data|
    && forall m :: 0 <= m < |st.item.vals| ==> ValuePlaced(SymbolsOf(items), data, (st.address - DATA_BASE) / 4 + m, st.item.vals[m])
  }

  ghost predicate ValuePlaced(syms: Symbols, data: seq<Word>, at: nat, v: Value) {
    at < |data| && Resolve(syms, v).Some? && data[at] == WordOf(Resolve(syms, v).value)
  }

  /** A data list whose byte count fits in 32 bits. */
  predicate Countable(vals: seq<Value>) { |vals| < 0x4000_0000 }

  ghost predicate IsDataList(items: seq<Item>, k: nat)
    requires Assemble(items).Some? && k < |Listing(items)|
  {
    Listing(items)[k].item.WordList? && Listing(items)[k].section == Data
  }

  /** What was placed below the cursor is still there, and the cursor has not gone back. */
  predicate Kept(s: Second, t: Second) {
    s.cursor <= t.cursor && forall a :: 0 <= a < s.cursor && a in s.data ==> a in t.data && t.data[a] == s.data[a]
  }

  lemma {:induction false} EmitDataIs(syms: Symbols, s: Second, vals: seq<Value>, n: nat)
    requires n <= |vals| && EmitWords(syms, s, Data, vals, n).Some? && s.cursor + 4 * n <= U32_MAX
    ensures var t := EmitWords(syms, s, Data, vals, n).value;
      && t.cursor == s.cursor + 4 * n && Kept(s, t)
      && forall m :: 0 <= m < n ==>
          Resolve(syms, vals[m]).Some? && s.cursor + 4 * m in t.data
          && t.data[s.cursor + 4 * m] == WordOf(Resolve(syms, vals[m]).value)
  {
    hide Resolve;
    hide WordOf;
    hide U32;
    if n > 0 {
      EmitDataIs(syms, s, vals, n - 1);
      U32Small(s.cursor + 4 * n);
    }
  }

  lemma KeptThrough(s: Second, t: Second, u: Second)
    requires Kept(s, t) && Kept(t, u)
    ensures Kept(s, u)
  {
  }

  /** A data list that can be counted is emitted without the cursor coming round. */
  lemma CountableList(syms: Symbols, f: First, s: Second, vals: seq<Value>)
    requires FirstStep(f, WordList(vals)).Some? && f.section == Data && s.cursor == f.data && Countable(vals)
    requires EmitWords(syms, s, Data, vals, |vals|).Some?
    ensures var t := EmitWords(syms, s, Data, vals, |vals|).value;
      && t.cursor == s.cursor + 4 * |vals| && Kept(s, t)
      && forall m :: 0 <= m < |vals| ==>
          Resolve(syms, vals[m]).Some? && s.cursor + 4 * m in t.data
          && t.data[s.cursor + 4 * m] == WordOf(Resolve(syms, vals[m]).value)
  {
    U32Small(4 * |vals|);
    hide U32;
    hide EmitWords;
    hide WordOf;
    hide Resolve;
    EmitDataIs(syms, s, vals, |vals|);
  }

  lemma KeptSpace(f: First, s: Second, vals: seq<Value>)
    requires FirstStep(f, Space(vals)).Some? && s.cursor == f.data && EmitSpace(s, f.section, vals).Some? && s.cursor <= U32_MAX
    ensures Kept(s, EmitSpace(s, f.section, vals).value)
  {
    if f.section == Data { U32Small(s.cursor + SpaceBytes(vals).value); }
    hide U32;
  }

  lemma KeptText(syms: Symbols, s: Second, section: Section, vals: seq<Value>, n: nat)
    requires n <= |vals| && section != Data && EmitWords(syms, s, section, vals, n).Some?
    ensures Kept(s, EmitWords(syms, s, section, vals, n).value)
    ensures EmitWords(syms, s, section, vals, n).value.data == s.data && EmitWords(syms, s, section, vals, n).value.cursor == s.cursor
  {
    hide Resolve;
    hide WordOf;
    if n > 0 { KeptText(syms, s, section, vals, n - 1); }
  }

  /** One statement keeps what was placed, unless it is a data list too long to count. */
  lemma KeptStep(syms: Symbols, f: First, s: Second, item: Item)
    requires InBounds(f) && s.cursor == f.data && FirstStep(f, item).Some? && !item.Label?
    requires SecondStep(syms, s, StatementOf(f, item)).Some?
    requires item.WordList? && f.section == Data ==> Countable(item.vals)
    ensures Kept(s, SecondStep(syms, s, StatementOf(f, item)).value)
  {
    hide EmitWords;
    hide EmitSpace;
    hide Encode;
    hide Countable;
    match item
    case DataSection(_) =>
    case TextSection(_) =>
    case Globl(_) =>
    case WordList(vals) =>
      if f.section == Data { CountableList(syms, f, s, vals); } else { KeptText(syms, s, f.section, vals, |vals|); }
    case Space(vals) => KeptSpace(f, s, vals);
    case Instruction(i) =>
  }

  ghost predicate AllCountable(items: seq<Item>)
    requires Assemble(items).Some?
  {
    forall k :: 0 <= k < |Listing(items)| && IsDataList(items, k) ==> Countable(Listing(items)[k].item.vals)
  }

  lemma KeptAt(items: seq<Item>, k: nat)
    requires Assemble(items).Some? && k < |Listing(items)| && AllCountable(items)
    ensures Kept(Before(items, k), Before(items, k + 1))
  {
    hide Assemble;
    hide FirstRun;
    hide SecondStep;
    hide FirstStep;
    hide StatementOf;
    hide DataWords;
    hide InBounds;
    hide Kept;
    BothRan(items);
    var j := StatementFrom(items, |items|, k);
    var f, syms, sts := FirstRun(items, j).value, SymbolsOf(items), Listing(items);
    StepIs(items, j);
    PositionsAgree(items, j);
    StatementHasItem(f, items[j]);
    if items[j].WordList? { ListSection(f, items[j]); }
    SecondBefore(syms, sts, k + 1, |sts|);
    SecondBefore(syms, sts, k, k + 1);
    assert SecondRun(syms, sts, k + 1) == SecondStep(syms, Before(items, k), sts[k]);
    assert items[j].WordList? && f.section == Data ==> IsDataList(items, k);
    KeptStep(syms, f, Before(items, k), items[j]);
  }

  lemma ListSection(f: First, item: Item)
    requires item.WordList?
    ensures StatementOf(f, item) == Statement(f.section, f.Here(), item)
  {
  }

  lemma {:induction false} KeptToEnd(items: seq<Item>, k: nat, n: nat)
    requires Assemble(items).Some? && k <= n <= |Listing(items)| && AllCountable(items)
    ensures Kept(Before(items, k), Before(items, n))
    decreases n
  {
    hide Assemble;
    hide Before;
    hide AllCountable;
    hide Kept;
    if k == n {
      KeptItself(Before(items, k));
    } else {
      KeptToEnd(items, k, n - 1);
      KeptAt(items, n - 1);
      KeptThrough(Before(items, k), Before(items, n - 1), Before(items, n));
    }
  }

  lemma KeptItself(s: Second)
    ensures Kept(s, s)
  {
  }

  /** What one data list puts where, and that it is there in the end. */
  lemma ListPlaced(items: seq<Item>, k: nat)
    requires Assemble(items).Some? && k < |Listing(items)| && AllCountable(items) && IsDataList(items, k)
    ensures DataPlaced(items, k)
  {
    hide Assemble;
    hide FirstRun;
    hide SecondRun;
    hide FirstStep;
    hide DataWords;
    hide Kept;
    hide EmitWords;
    hide Resolve;
    hide WordOf;
    BothRan(items);
    var j := StatementFrom(items, |items|, k);
    var f, s, vals := FirstRun(items, j).value, Before(items, k), Listing(items)[k].item.vals;
    var end := Before(items, |Listing(items)|);
    StepIs(items, j);
    PositionsAgree(items, j);
    StatementHasItem(f, items[j]);
    ListSection(f, items[j]);
    ListEmitted(items, k);
    CountableList(SymbolsOf(items), f, s, vals);
    var t := EmitWords(SymbolsOf(items), s, Data, vals, |vals|).value;
    KeptToEnd(items, k + 1, |Listing(items)|);
    InDataImage(SymbolsOf(items), s, t, end, vals, Assemble(items).value.data);
  }

  lemma ListEmitted(items: seq<Item>, k: nat)
    requires Assemble(items).Some? && k < |Listing(items)| && IsDataList(items, k)
    ensures var vals := Listing(items)[k].item.vals;
      EmitWords(SymbolsOf(items), Before(items, k), Data, vals, |vals|) == Some(Before(items, k + 1))
  {
    hide Assemble;
    hide FirstRun;
    hide DataWords;
    hide EmitWords;
    BothRan(items);
    var syms, sts := SymbolsOf(items), Listing(items);
    SecondBefore(syms, sts, k + 1, |sts|);
    SecondBefore(syms, sts, k, k + 1);
    assert SecondRun(syms, sts, k + 1) == SecondStep(syms, Before(items, k), sts[k]);
  }

  lemma InDataImage(syms: Symbols, s: Second, t: Second, end: Second, vals: seq<Value>, data: seq<Word>)
    requires s.cursor >= DATA_BASE && s.cursor % 4 == 0 && t.cursor == s.cursor + 4 * |vals| && Kept(t, end) && data == DataWords(end)
    requires forall m :: 0 <= m < |vals| ==>
      Resolve(syms, vals[m]).Some? && s.cursor + 4 * m in t.data && t.data[s.cursor + 4 * m] == WordOf(Resolve(syms, vals[m]).value)
    ensures (s.cursor - DATA_BASE) / 4 + |vals| <= |data|
    ensures forall m :: 0 <= m < |vals| ==> ValuePlaced(syms, data, (s.cursor - DATA_BASE) / 4 + m, vals[m])
  {
    hide Resolve;
    hide WordOf;
    var d := (s.cursor - DATA_BASE) / 4;
    forall m | 0 <= m < |vals| ensures ValuePlaced(syms, data, d + m, vals[m]) {
      assert DATA_BASE + 4 * (d + m) == s.cursor + 4 * m;
    }
  }

  /**
   * Every data list of an assembled program stands in the data image at its address,
   * exactly if none of them has 2^30 words or more: the byte count of such a list wraps,
   * and the program assembles without its words.
   */
  lemma DataPlacedExactly(items: seq<Item>)
    requires Assemble(items).Some?
    ensures AllCountable(items) <==> forall k :: 0 <= k < |Listing(items)| && IsDataList(items, k) ==> DataPlaced(items, k)
  {
    hide Assemble;
    hide FirstRun;
    hide DataWords;
    hide ValuePlaced;
    if AllCountable(items) {
      forall k | 0 <= k < |Listing(items)| && IsDataList(items, k) ensures DataPlaced(items, k) { ListPlaced(items, k); }
    } else {
      DataFits(items);
      var k :| 0 <= k < |Listing(items)| && IsDataList(items, k) && !Countable(Listing(items)[k].item.vals);
      assert !DataPlaced(items, k);
    }
  }

  lemma DataFits(items: seq<Item>)
    requires Assemble(items).Some?
    ensures |Assemble(items).value.data| <= AVAILABLE_WORDS
  {
    hide FirstRun;
    hide SecondRun;
    hide DataWords;
  }

  // -------------------------------------------------------------------- a list that is lost

  const TOO_MANY: nat := 0x4000_0000

  function Zeros(): (vals: seq<Value>)
    ensures |vals| == TOO_MANY && forall k :: 0 <= k < TOO_MANY ==> vals[k] == Number(0)
  {
    seq(TOO_MANY, _ => Number(0))
  }

  /** A data section of 2^30 zeros, and a program of one instruction. */
  function HugeProgram(): seq<Item> { [DataSection(0), WordList(Zeros()), TextSection(0), Instruction(Nop)] }

  lemma {:induction false} ZerosEmitted(syms: Symbols, s: Second, vals: seq<Value>, n: nat)
    requires n <= |vals| && s.cursor % 4 == 0 && s.cursor <= U32_MAX
    requires forall k :: 0 <= k < |vals| ==> vals[k] == Number(0)
    ensures EmitWords(syms, s, Data, vals, n).Some?
  {
    hide WordOf;
    hide U32;
    if n > 0 {
      ZerosEmitted(syms, s, vals, n - 1);
      EmitWordsIs(syms, s, Data, vals, n - 1);
      assert s.cursor + 4 * (n - 1) == 4 * (s.cursor / 4 + n - 1);
      U32Aligned(s.cursor / 4 + n - 1);
    }
  }

  lemma HugeFirst()
    ensures var f := FirstRun(HugeProgram(), 4);
      f.Some? && f.value.syms == map[] && |f.value.out| == 4 && f.value.out[0].item == DataSection(0) &&
      f.value.out[1] == Statement(Data, DATA_BASE, WordList(Zeros())) && f.value.out[2].item == TextSection(0) &&
      f.value.out[3].item == Instruction(Nop)
  {
    var items := HugeProgram();
    hide Zeros;
    assert U32(4 * TOO_MANY) == 0;
    assert FirstRun(items, 1) == FirstStep(START, items[0]);
    assert FirstRun(items, 2) == FirstStep(FirstRun(items, 1).value, items[1]);
    assert FirstRun(items, 3) == FirstStep(FirstRun(items, 2).value, items[2]);
    assert FirstRun(items, 4) == FirstStep(FirstRun(items, 3).value, items[3]);
  }

  lemma SecondNext(syms: Symbols, sts: seq<Statement>, n: nat)
    requires n < |sts| && SecondRun(syms, sts, n).Some?
    ensures SecondRun(syms, sts, n + 1) == SecondStep(syms, SecondRun(syms, sts, n).value, sts[n])
  {
    hide SecondStep;
  }

  lemma NopEmitted(syms: Symbols, s: Second, st: Statement)
    requires st.item == Instruction(Nop)
    ensures SecondStep(syms, s, st) == Some(s.(text := s.text + [0]))
  {
    assert Encode(syms, st.address, Nop) == Some([0]);
    hide Encode;
  }

  lemma SectionEmitsNothing(syms: Symbols, s: Second, st: Statement)
    requires st.item.DataSection? || st.item.TextSection?
    ensures SecondStep(syms, s, st) == Some(s)
  {
    hide Encode;
    hide EmitWords;
    hide EmitSpace;
  }

  lemma ListEmits(syms: Symbols, s: Second, st: Statement)
    requires st.item.WordList?
    ensures SecondStep(syms, s, st) == EmitWords(syms, s, st.section, st.item.vals, |st.item.vals|)
  {
    hide Encode;
    hide EmitWords;
    hide EmitSpace;
  }

  /** The cursor goes round with the byte count. */
  lemma RoundTheClock()
    ensures U32(EMPTY.cursor + 4 * TOO_MANY) == DATA_BASE && EMPTY.cursor == DATA_BASE && DATA_BASE % 4 == 0 && DATA_BASE <= U32_MAX
    ensures EMPTY.text == [] && forall sts :: SecondRun(map[], sts, 0) == Some(EMPTY)
  {
  }

  lemma HugeSecond(sts: seq<Statement>)
    requires |sts| == 4 && sts[0].item == DataSection(0) && sts[1] == Statement(Data, DATA_BASE, WordList(Zeros()))
    requires sts[2].item == TextSection(0) && sts[3].item == Instruction(Nop)
    ensures var s := SecondRun(map[], sts, 4); s.Some? && s.value.cursor == DATA_BASE && |s.value.text| == 1
  {
    hide *;
    RoundTheClock();
    ZerosEmitted(map[], EMPTY, Zeros(), TOO_MANY);
    EmitWordsIs(map[], EMPTY, Data, Zeros(), TOO_MANY);
    var t := EmitWords(map[], EMPTY, Data, Zeros(), TOO_MANY).value;
    SecondNext(map[], sts, 0);
    SectionEmitsNothing(map[], EMPTY, sts[0]);
    SecondNext(map[], sts, 1);
    ListEmits(map[], EMPTY, sts[1]);
    SecondNext(map[], sts, 2);
    SectionEmitsNothing(map[], t, sts[2]);
    SecondNext(map[], sts, 3);
    NopEmitted(map[], t, sts[3]);
  }

  lemma AssembledFrom(items: seq<Item>, f: First, s: Second)
    requires FirstRun(items, |items|) == Some(f) && SecondRun(f.syms, f.out, |f.out|) == Some(s) && SizeOk(s.text, DataWords(s))
    ensures Assemble(items) == Some(Program(s.text, DataWords(s))) && Listing(items) == f.out
  {
    hide FirstRun;
    hide SecondRun;
    hide DataWords;
  }

  lemma TooLongIsNotPlaced(items: seq<Item>, k: nat)
    requires Assemble(items).Some? && k < |Listing(items)| && Listing(items)[k].section == Data
    requires Listing(items)[k].item.WordList? && |Listing(items)[k].item.vals| >= TOO_MANY
    ensures !AllCountable(items) && IsDataList(items, k) && !DataPlaced(items, k)
  {
    DataFits(items);
    hide Assemble;
    hide Listing;
  }

  /** Such a program assembles, and its data image is empty. */
  lemma HugeListIsLost()
    ensures Assemble(HugeProgram()).Some? && Assemble(HugeProgram()).value.data == [] && |Assemble(HugeProgram()).value.text| == 1
    ensures |Listing(HugeProgram())| == 4 && !AllCountable(HugeProgram())
    ensures IsDataList(HugeProgram(), 1) && !DataPlaced(HugeProgram(), 1)
  {
    var items := HugeProgram();
    assert |items| == 4;
    HugeFirst();
    var f := FirstRun(items, 4).value;
    HugeSecond(f.out);
    var s := SecondRun(f.syms, f.out, 4).value;
    assert |DataWords(s)| == 0 && SizeOk(s.text, DataWords(s));
    hide HugeProgram;
    hide Zeros;
    hide FirstRun;
    hide SecondRun;
    hide DataWords;
    AssembledFrom(items, f, s);
    TooLongIsNotPlaced(items, 1);
    hide Assemble;
    hide Listing;
    hide AllCountable;
    hide IsDataList;
    hide DataPlaced;
  }
}
