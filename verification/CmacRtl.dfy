/**
 * The 32-byte CMAC unit over the iterative AES core, with its subkey cache.
 * `k1` holds the subkey, and on a cache miss the first message block first.
 */
module CmacRtl {
  import opened Words
  import opened Aes
  import opened AesRtl

  // ----------------------------------------------------------------- what a tag is

  /** Doubling of a 128-bit value, most significant word first. */
  function Dbl(x: Block): Block {
    Block(ShiftWord(x.w0, x.w1), ShiftWord(x.w1, x.w2), ShiftWord(x.w2, x.w3), ReduceWord(x.w3, x.w0))
  }

  /** A word shifted left by one, with the top bit of the word behind it. */
  function ShiftWord(w: Word, behind: Word): Word { (w << 1) | (behind >> 31) }

  /** The last word shifted left by one, reduced if the top bit of the first fell out. */
  function ReduceWord(w: Word, first: Word): Word { if TopBit(first) then (w << 1) ^ 0x87 else w << 1 }

  predicate TopBit(w: Word) { w >> 31 == 1 }

  function Subkey(key: Block): Block { Dbl(Encrypt(key, ZERO)) }

  /** The tag made with the subkey `k1` when the first block encrypts to `mid`. */
  function TagFrom(key: Block, mid: Block, m2: Block, k1: Block): Block { Encrypt(key, Xor(Xor(mid, m2), k1)) }

  /** The CMAC of two complete blocks. */
  function Cmac32(key: Block, m1: Block, m2: Block): Block { TagFrom(key, Encrypt(key, m1), m2, Subkey(key)) }

  // ---------------------------------------------------------------------- the unit

  datatype CState = S_IDLE | S_L | S_M1 | S_LAST

  datatype Cache = Cache(valid: bool, key: Block)

  datatype Unit = Unit(
    fsm: CState, start: bool, x: Block, key: Block, m2: Block, k1: Block, cache: Cache,
    done: bool, tag: Block, core: Core)

  datatype In = In(start: bool, clear: bool, key: Block, k1Valid: bool, k1: Block, m1: Block, m2: Block)

  const RESET: Unit := Unit(S_IDLE, false, ZERO, ZERO, ZERO, ZERO, Cache(false, ZERO), false, ZERO, RESET_CORE)

  predicate Busy(c: Unit) { c.fsm != S_IDLE || c.core.busy }

  predicate Accepts(c: Unit, i: In) { c.fsm == S_IDLE && i.start && !i.clear && !c.core.busy }

  /** The subkey is at hand: presented, or cached for this key. */
  predicate Hit(c: Unit, i: In) { i.k1Valid || (c.cache.valid && c.cache.key == i.key) }

  function AcceptNext(c: Unit, b: Unit, i: In): Unit {
    b.(fsm := if Hit(c, i) then S_M1 else S_L, start := true, x := if Hit(c, i) then i.m1 else ZERO,
       key := i.key, m2 := i.m2,
       k1 := if i.k1Valid then i.k1 else if Hit(c, i) then c.k1 else i.m1)
  }

  /** What the state machine does when the core is done; `b` has the defaults and the clear applied. */
  function DoneNext(c: Unit, b: Unit): Unit {
    var out := BlockOf(c.core.result);
    match c.fsm
    case S_IDLE => b
    case S_L => b.(x := c.k1, k1 := Dbl(out), cache := Cache(true, c.key), start := true, fsm := S_M1)
    case S_M1 => b.(x := Xor(Xor(out, c.m2), c.k1), start := true, fsm := S_LAST)
    case S_LAST => b.(tag := out, done := true, m2 := ZERO, fsm := S_IDLE)
  }

  /** One clock edge; where two assignments meet, the later one of the source counts. */
  function Next(c: Unit, i: In): Unit {
    var d := c.(start := false, done := false, core := CoreNext(c.core, c.start, c.key, c.x));
    var b := if i.clear then d.(cache := Cache(false, ZERO), k1 := ZERO) else d;
    var e := if Accepts(c, i) then AcceptNext(c, b, i) else if c.core.done then DoneNext(c, b) else b;
    if i.clear && c.fsm != S_IDLE then e.(fsm := S_IDLE, m2 := ZERO, key := ZERO) else e
  }

  function Run(c: Unit, ins: seq<In>): Unit
    decreases |ins|
  {
    if ins == [] then c else Run(Next(c, ins[0]), ins[1..])
  }

  // ----------------------------------------------------------------- one request

  /** A request being worked on: what the core will make of the first block, and the subkey in use. */
  datatype Job = Job(key: Block, m2: Block, mid: Block, k1: Block) {
    function Tag(): Block { TagFrom(key, mid, m2, k1) }
  }

  /** What the core delivers first after a request: a start still pending there comes before the request's own. */
  function First(c: Unit, i: In): Block {
    if c.start then Encrypt(c.key, c.x) else Encrypt(i.key, if Hit(c, i) then i.m1 else ZERO)
  }

  /** The work a request turns into, in the state it is accepted in. */
  function JobOf(c: Unit, i: In): Job {
    if Hit(c, i) then Job(i.key, i.m2, First(c, i), if i.k1Valid then i.k1 else c.k1)
    else Job(i.key, i.m2, Encrypt(i.key, i.m1), Dbl(First(c, i)))
  }

  function Latency(c: Unit, i: In): nat { (if Hit(c, i) then 25 else 37) - (if c.start then 1 else 0) }

  predicate CoreWill(c: Unit, out: Block, n: nat) { Delivers(c.core, c.start, c.key, c.x, out, n) }

  /** The unit works on `j` and answers at clock `n` from here. */
  ghost predicate Working(c: Unit, j: Job, n: nat) {
    && c.key == j.key && c.m2 == j.m2
    && match c.fsm
       case S_IDLE => false
       case S_L => n > 24 && j.mid == Encrypt(j.key, c.k1) && exists l :: j.k1 == Dbl(l) && CoreWill(c, l, n - 25)
       case S_M1 => n > 12 && c.k1 == j.k1 && CoreWill(c, j.mid, n - 13)
       case S_LAST => n > 0 && c.k1 == j.k1 && CoreWill(c, j.Tag(), n - 1)
  }

  /** The registers of the core are in range, and a start has not been overtaken. */
  predicate Sane(c: Unit) {
    && (c.core.busy ==> 1 <= c.core.round <= 10 && !c.core.done)
    && (c.start ==> !c.core.done && (c.core.busy ==> c.core.round == 1))
    && (c.fsm != S_IDLE ==> c.start || c.core.busy || c.core.done)
  }

  lemma SaneStep(c: Unit, i: In)
    requires Sane(c)
    ensures Sane(Next(c, i))
  {
    hide NextKey;
    hide AddRoundKey;
    hide StateOf;
    hide BlockOf;
    hide Dbl;
    hide MixAll;
    hide SubShift;
    hide RconOf;
  }

  lemma AcceptWorks(c: Unit, i: In)
    requires Sane(c) && Accepts(c, i)
    ensures Working(Next(c, i), JobOf(c, i), Latency(c, i) - 1)
    ensures !Next(c, i).done && Next(c, i).cache == c.cache
  {
    hide Encrypt;
    hide BlockOf;
    hide Dbl;
    hide Finish;
    hide TagFrom;
    hide AddRoundKey;
    hide StateOf;
    var n := Next(c, i);
    if c.start {
      DeliversStep(c.core, true, c.key, c.x, First(c, i), 11, true, n.key, n.x);
    }
    assert CoreWill(n, First(c, i), if c.start then 10 else 11);
  }

  /** The job is done at the last clock, with the subkey left in its register. */
  predicate Finished(t: Unit, j: Job) {
    t.done && t.tag == j.Tag() && t.fsm == S_IDLE && !t.start && !t.core.busy && t.k1 == j.k1
  }

  /** Between two deliveries of the core nothing but the core moves. */
  lemma CoreRuns(c: Unit, out: Block, n: nat, i: In)
    requires Sane(c) && c.fsm != S_IDLE && CoreWill(c, out, n) && !i.clear && n > 0
    ensures var t := Next(c, i);
      CoreWill(t, out, n - 1) && t == c.(start := false, done := false, core := t.core)
  {
    hide Encrypt;
    hide BlockOf;
    hide Finish;
    hide CoreNext;
    DeliversStep(c.core, c.start, c.key, c.x, out, n, false, c.key, c.x);
  }

  /** A delivery: the state machine takes the result and starts the next operation. */
  lemma CoreDone(c: Unit, out: Block, i: In)
    requires Sane(c) && c.fsm != S_IDLE && CoreWill(c, out, 0) && !i.clear
    ensures var t := Next(c, i);
      && (c.fsm == S_L ==>
            CoreWill(t, Encrypt(c.key, c.k1), 11) && t.k1 == Dbl(out) && t.fsm == S_M1 && t.cache == Cache(true, c.key))
      && (c.fsm == S_M1 ==> CoreWill(t, TagFrom(c.key, out, c.m2, c.k1), 11) && t.fsm == S_LAST)
      && (c.fsm == S_LAST ==> t.done && t.tag == out && t.fsm == S_IDLE && !t.start && !t.core.busy)
      && (c.fsm != S_L ==> t.k1 == c.k1 && t.cache == c.cache)
      && t.key == c.key && (c.fsm != S_LAST ==> t.m2 == c.m2 && !t.done)
  {
    hide Encrypt;
    hide BlockOf;
    hide Finish;
    hide Dbl;
    hide Xor;
  }

  lemma WorkStep(c: Unit, j: Job, n: nat, i: In)
    requires Sane(c) && Working(c, j, n) && !i.clear
    ensures var t := Next(c, i); if n == 1 then Finished(t, j) else Working(t, j, n - 1) && !t.done
    ensures var t := Next(c, i); t.cache == if c.fsm == S_L && c.core.done then Cache(true, j.key) else c.cache
    ensures if n == 1 then c.fsm != S_L else Next(c, i).fsm == S_L <==> c.fsm == S_L && !c.core.done
  {
    hide Encrypt;
    hide Dbl;
    hide TagFrom;
    hide Next;
    hide Delivers;
    var out, m: nat;
    match c.fsm
    case S_L =>
      out, m :| j.k1 == Dbl(out) && CoreWill(c, out, m) && m == n - 25;
      Stage(c, out, m, i);
    case S_M1 => Stage(c, j.mid, n - 13, i);
    case S_LAST => Stage(c, j.Tag(), n - 1, i);
  }

  lemma Stage(c: Unit, out: Block, n: nat, i: In)
    requires Sane(c) && c.fsm != S_IDLE && CoreWill(c, out, n) && !i.clear
    ensures c.core.done == (n == 0)
    ensures var t := Next(c, i);
      if n > 0 then CoreWill(t, out, n - 1) && t == c.(start := false, done := false, core := t.core)
      else
        && (c.fsm == S_L ==>
              CoreWill(t, Encrypt(c.key, c.k1), 11) && t.k1 == Dbl(out) && t.fsm == S_M1 && t.cache == Cache(true, c.key))
        && (c.fsm == S_M1 ==> CoreWill(t, TagFrom(c.key, out, c.m2, c.k1), 11) && t.fsm == S_LAST)
        && (c.fsm == S_LAST ==> t.done && t.tag == out && t.fsm == S_IDLE && !t.start && !t.core.busy)
        && (c.fsm != S_L ==> t.k1 == c.k1 && t.cache == c.cache)
        && t.key == c.key && (c.fsm != S_LAST ==> t.m2 == c.m2 && !t.done)
  {
    hide Next;
    hide Encrypt;
    hide Finish;
    hide BlockOf;
    if n > 0 { CoreRuns(c, out, n, i); } else { CoreDone(c, out, i); }
  }

  ghost predicate Undisturbed(ins: seq<In>) { forall k :: 0 <= k < |ins| ==> !ins[k].clear }

  lemma {:induction false} WorkRun(c: Unit, j: Job, n: nat, ins: seq<In>)
    requires Sane(c) && Working(c, j, n) && Undisturbed(ins) && 0 < |ins| <= n
    ensures var t := Run(c, ins); Sane(t) && if |ins| == n then Finished(t, j) else Working(t, j, n - |ins|) && !t.done
    ensures |ins| == n ==> Run(c, ins).cache == if c.fsm == S_L then Cache(true, j.key) else c.cache
    decreases |ins|
  {
    hide Working;
    hide Sane;
    hide Next;
    hide Finished;
    SaneStep(c, ins[0]);
    WorkStep(c, j, n, ins[0]);
    var t := Next(c, ins[0]);
    if |ins| == 1 {
      assert Run(t, ins[1..]) == t;
    } else {
      WorkRun(t, j, n - 1, ins[1..]);
    }
  }

  /**
   * One request, exactly: a unit left alone answers at the clock of its latency
   * and not before, with the tag of the work the request turned into.
   */
  lemma RequestAnswered(c: Unit, ins: seq<In>)
    requires Sane(c) && ins != [] && Accepts(c, ins[0]) && Undisturbed(ins) && |ins| <= Latency(c, ins[0])
    ensures var t, j := Run(c, ins), JobOf(c, ins[0]);
      && t.done == (|ins| == Latency(c, ins[0]))
      && (t.done ==> Finished(t, j) && t.cache == if Hit(c, ins[0]) then c.cache else Cache(true, ins[0].key))
  {
    hide Working;
    hide Sane;
    hide Next;
    hide JobOf;
    hide Encrypt;
    hide TagFrom;
    SaneStep(c, ins[0]);
    AcceptWorks(c, ins[0]);
    AcceptedState(c, ins[0]);
    var t := Next(c, ins[0]);
    if |ins| == 1 {
      assert Run(t, ins[1..]) == t;
    } else {
      WorkRun(t, JobOf(c, ins[0]), Latency(c, ins[0]) - 1, ins[1..]);
    }
  }

  lemma AcceptedState(c: Unit, i: In)
    requires Accepts(c, i)
    ensures Next(c, i).fsm == (if Hit(c, i) then S_M1 else S_L) && JobOf(c, i).key == i.key
  {
    hide CoreNext;
    hide Encrypt;
  }

  // -------------------------------------------------------------- when it is right

  lemma WordUndoes(a: Word, m: Word)
    ensures WordXor(WordXor(a, m), m) == a
  {
  }

  lemma WordAssociates(a: Word, m: Word, x: Word)
    ensures WordXor(WordXor(a, m), x) == WordXor(a, WordXor(m, x))
  {
  }

  lemma WordSwaps(a: Word, m: Word, x: Word)
    ensures WordXor(WordXor(a, m), x) == WordXor(WordXor(a, x), m)
  {
    WordAssociates(a, m, x);
    WordAssociates(a, x, m);
    assert WordXor(m, x) == WordXor(x, m);
    hide WordXor;
  }

  lemma WordCancels(a: Word, b: Word, x: Word, y: Word, m: Word)
    ensures WordXor(WordXor(a, m), x) == WordXor(WordXor(b, m), y) <==> WordXor(a, x) == WordXor(b, y)
  {
    hide WordXor;
    WordSwaps(a, m, x);
    WordSwaps(b, m, y);
    WordUndoes(WordXor(a, x), m);
    WordUndoes(WordXor(b, y), m);
  }

  lemma XorCancels(a: Block, b: Block, x: Block, y: Block, m: Block)
    ensures Xor(Xor(a, m), x) == Xor(Xor(b, m), y) <==> Xor(a, x) == Xor(b, y)
  {
    hide WordXor;
    WordCancels(a.w0, b.w0, x.w0, y.w0, m.w0);
    WordCancels(a.w1, b.w1, x.w1, y.w1, m.w1);
    WordCancels(a.w2, b.w2, x.w2, y.w2, m.w2);
    WordCancels(a.w3, b.w3, x.w3, y.w3, m.w3);
  }

  lemma EncryptInjective(key: Block, x: Block, y: Block)
    ensures Encrypt(key, x) == Encrypt(key, y) <==> x == y
  {
    hide Encrypt;
    hide Decrypt;
    DecryptInvertsEncrypt(key, x);
    DecryptInvertsEncrypt(key, y);
  }

  /** A tag is the CMAC exactly if the errors in the first block and in the subkey cancel. */
  lemma TagIsCmacExactly(j: Job, m1: Block)
    ensures j.Tag() == Cmac32(j.key, m1, j.m2) <==> Xor(j.mid, j.k1) == Xor(Encrypt(j.key, m1), Subkey(j.key))
  {
    hide Encrypt;
    hide Subkey;
    hide Xor;
    XorCancels(j.mid, Encrypt(j.key, m1), j.k1, Subkey(j.key), j.m2);
    EncryptInjective(j.key, Xor(Xor(j.mid, j.m2), j.k1), Xor(Xor(Encrypt(j.key, m1), j.m2), Subkey(j.key)));
  }

  /** No start is pending: the core will work on what the unit asks for next. */
  predicate Settled(c: Unit) { !c.start }

  /**
   * When no start is pending, a request is answered with its CMAC exactly if the
   * subkey taken for it, presented or cached, is that of its key. A miss always is.
   */
  lemma SettledAnswerExactly(c: Unit, i: In)
    requires Accepts(c, i) && Settled(c)
    ensures JobOf(c, i).Tag() == Cmac32(i.key, i.m1, i.m2) <==>
      (Hit(c, i) ==> (if i.k1Valid then i.k1 else c.k1) == Subkey(i.key))
  {
    hide Encrypt;
    hide Xor;
    hide Dbl;
    TagIsCmacExactly(JobOf(c, i), i.m1);
    XorLeft(Encrypt(i.key, i.m1), JobOf(c, i).k1, Subkey(i.key));
  }

  lemma WordLeft(a: Word, x: Word, y: Word)
    ensures WordXor(a, x) == WordXor(a, y) <==> x == y
  {
    assert WordXor(a, x) == WordXor(x, a) && WordXor(a, y) == WordXor(y, a);
    WordUndoes(x, a);
    WordUndoes(y, a);
    hide WordXor;
  }

  lemma XorLeft(a: Block, x: Block, y: Block)
    ensures Xor(a, x) == Xor(a, y) <==> x == y
  {
    hide WordXor;
    WordLeft(a.w0, x.w0, y.w0);
    WordLeft(a.w1, x.w1, y.w1);
    WordLeft(a.w2, x.w2, y.w2);
    WordLeft(a.w3, x.w3, y.w3);
  }

  lemma XorRight(a: Block, b: Block, x: Block)
    ensures Xor(a, x) == Xor(b, x) <==> a == b
  {
    hide WordXor;
    WordUndoes(a.w0, x.w0);
    WordUndoes(a.w1, x.w1);
    WordUndoes(a.w2, x.w2);
    WordUndoes(a.w3, x.w3);
    WordUndoes(b.w0, x.w0);
    WordUndoes(b.w1, x.w1);
    WordUndoes(b.w2, x.w2);
    WordUndoes(b.w3, x.w3);
  }

  lemma DblInjective(x: Block, y: Block)
    ensures Dbl(x) == Dbl(y) <==> x == y
  {
  }

  /**
   * With a start pending, the core works on that first. On a miss the tag is then
   * right exactly if the stale operation happens to give the same block.
   */
  lemma PendingMissExactly(c: Unit, i: In)
    requires Accepts(c, i) && !Settled(c) && !Hit(c, i)
    ensures JobOf(c, i).Tag() == Cmac32(i.key, i.m1, i.m2) <==> Encrypt(c.key, c.x) == Encrypt(i.key, ZERO)
  {
    hide Encrypt;
    hide Xor;
    hide Dbl;
    TagIsCmacExactly(JobOf(c, i), i.m1);
    XorLeft(Encrypt(i.key, i.m1), JobOf(c, i).k1, Subkey(i.key));
    DblInjective(First(c, i), Encrypt(i.key, ZERO));
  }

  /** On a hit two requests that differ in the first block cannot both be answered rightly. */
  lemma PendingHitIsWrong(c: Unit, i: In, k: In)
    requires Accepts(c, i) && Accepts(c, k) && !Settled(c) && Hit(c, i)
    requires k == i.(m1 := k.m1) && i.m1 != k.m1
    ensures JobOf(c, i).Tag() != Cmac32(i.key, i.m1, i.m2) || JobOf(c, k).Tag() != Cmac32(k.key, k.m1, k.m2)
  {
    hide Encrypt;
    hide Xor;
    hide Dbl;
    TagIsCmacExactly(JobOf(c, i), i.m1);
    TagIsCmacExactly(JobOf(c, k), k.m1);
    EncryptInjective(i.key, i.m1, k.m1);
    XorRight(Encrypt(i.key, i.m1), Encrypt(i.key, k.m1), Subkey(i.key));
  }

  /** A start is left pending in an idle unit exactly by a clear that meets a finished operation, but for the last. */
  lemma PendingExactly(c: Unit, i: In)
    requires Sane(c)
    ensures var t := Next(c, i);
      t.fsm == S_IDLE && t.start <==> i.clear && c.core.done && (c.fsm == S_L || c.fsm == S_M1)
  {
    hide CoreNext;
    hide Dbl;
    hide Xor;
    hide BlockOf;
  }

  /** A clear wipes the cached subkey, except at the clock that fills the cache. */
  lemma ClearWipesExactly(c: Unit, i: In)
    requires i.clear
    ensures var t := Next(c, i);
      if c.fsm == S_L && c.core.done then t.cache == Cache(true, c.key) && t.k1 == Dbl(BlockOf(c.core.result))
      else t.cache == Cache(false, ZERO) && t.k1 == ZERO
  {
    hide CoreNext;
    hide Dbl;
    hide Xor;
    hide BlockOf;
  }

  /**
   * A request with its subkey, between two requests for another key without one,
   * leaves its own subkey under the cached key: the second is answered with its
   * CMAC exactly if the two subkeys are the same.
   */
  lemma MixedModesExactly(c: Unit, ins: seq<In>, k: In)
    requires Sane(c) && ins != [] && Accepts(c, ins[0]) && Undisturbed(ins) && |ins| == Latency(c, ins[0])
    requires c.cache.valid && ins[0].k1Valid
    requires k.start && !k.clear && !k.k1Valid && k.key == c.cache.key
    ensures var t := Run(c, ins);
      && Accepts(t, k) && Settled(t)
      && (JobOf(t, k).Tag() == Cmac32(k.key, k.m1, k.m2) <==> ins[0].k1 == Subkey(k.key))
  {
    hide Encrypt;
    hide Dbl;
    hide Next;
    hide Subkey;
    RequestAnswered(c, ins);
    SettledAnswerExactly(Run(c, ins), k);
  }

  lemma {:induction false} RunLast(c: Unit, ins: seq<In>)
    requires ins != []
    ensures Run(c, ins) == Next(Run(c, ins[..|ins| - 1]), ins[|ins| - 1])
    decreases |ins|
  {
    hide Next;
    if |ins| == 1 {
      assert Run(Next(c, ins[0]), ins[1..]) == Next(c, ins[0]);
    } else {
      RunLast(Next(c, ins[0]), ins[1..]);
      assert ins[1..][..|ins| - 2] == ins[..|ins| - 1][1..];
    }
  }

  /** Such a state is reached: a clear twelve clocks after any request leaves an idle unit with a start pending. */
  lemma ClearLeavesPending(c: Unit, ins: seq<In>)
    requires Sane(c) && Settled(c) && |ins| == 13 && Accepts(c, ins[0]) && Undisturbed(ins[..12]) && ins[12].clear
    ensures var t := Run(c, ins); !Settled(t) && !Busy(t)
  {
    hide Next;
    hide Encrypt;
    hide Dbl;
    hide JobOf;
    var n, j := Latency(c, ins[0]), JobOf(c, ins[0]);
    var first := ins[..12];
    AcceptWorks(c, ins[0]);
    SaneStep(c, ins[0]);
    AcceptedState(c, ins[0]);
    WorkRun(Next(c, ins[0]), j, n - 1, first[1..]);
    var t := Run(c, first);
    assert Working(t, j, n - 12) && Sane(t);
    RunLast(c, ins);
    FirstIsDone(t, j, n - 12);
    PendingExactly(t, ins[12]);
    ClearedCore(t, ins[12]);
  }

  lemma FirstIsDone(c: Unit, j: Job, n: nat)
    requires Working(c, j, n) && Sane(c) && (n == 13 || n == 25)
    ensures c.core.done && (c.fsm == S_M1 || c.fsm == S_L)
  {
    hide Encrypt;
    hide BlockOf;
    hide Finish;
  }

  lemma ClearedCore(c: Unit, i: In)
    requires Sane(c) && c.core.done
    ensures !Next(c, i).core.busy
  {
    hide Dbl;
    hide Xor;
    hide BlockOf;
  }

  // ------------------------------------------------------------------- whole runs

  /** The request the unit is working on. */
  datatype Request = Request(key: Block, m1: Block, m2: Block)

  function RequestNext(c: Unit, q: Request, i: In): Request {
    if Accepts(c, i) then Request(i.key, i.m1, i.m2) else q
  }

  /** A start is given with its right subkey, or never with one, and not into a unit with a start pending. */
  predicate Proper(c: Unit, i: In, precomputed: bool) {
    Accepts(c, i) ==> Settled(c) && i.k1Valid == precomputed && (precomputed ==> i.k1 == Subkey(i.key))
  }

  /** Every request of the run is proper, and every tag that comes out is the CMAC of the request worked on. */
  ghost predicate TagsAreRight(c: Unit, q: Request, ins: seq<In>, precomputed: bool)
    decreases |ins|
  {
    ins == [] || !Proper(c, ins[0], precomputed) ||
    var t, q2 := Next(c, ins[0]), RequestNext(c, q, ins[0]);
    && (t.done ==> t.tag == Cmac32(q2.key, q2.m1, q2.m2))
    && TagsAreRight(t, q2, ins[1..], precomputed)
  }

  /** The cached subkey, when it is not in use for the message, is that of its key. */
  ghost predicate CacheIsRight(c: Unit, precomputed: bool) {
    if precomputed then !c.cache.valid && c.fsm != S_L
    else c.cache.valid && c.fsm != S_L ==> c.k1 == Subkey(c.cache.key)
  }

  function RightJob(q: Request): Job { Job(q.key, q.m2, Encrypt(q.key, q.m1), Subkey(q.key)) }

  ghost predicate RightWork(c: Unit, q: Request) { exists n: nat :: Working(c, RightJob(q), n) }

  ghost predicate Sound(c: Unit, q: Request, precomputed: bool) {
    Sane(c) && CacheIsRight(c, precomputed) && (c.fsm != S_IDLE ==> RightWork(c, q))
  }

  lemma RightRequest(c: Unit, q: Request, i: In, precomputed: bool)
    requires Sound(c, q, precomputed) && Accepts(c, i) && Proper(c, i, precomputed)
    ensures JobOf(c, i) == RightJob(RequestNext(c, q, i))
  {
    hide Encrypt;
    hide Dbl;
    hide Working;
  }

  lemma AcceptIsSound(c: Unit, q: Request, i: In, precomputed: bool)
    requires Sound(c, q, precomputed) && Accepts(c, i) && Proper(c, i, precomputed)
    ensures Sound(Next(c, i), RequestNext(c, q, i), precomputed) && !Next(c, i).done
  {
    hide Encrypt;
    hide Dbl;
    hide Working;
    hide JobOf;
    hide RightJob;
    hide CoreNext;
    SaneStep(c, i);
    RightRequest(c, q, i, precomputed);
    AcceptWorks(c, i);
    hide Sane;
  }

  /** What the core has finished is the block the job waits for. */
  lemma DeliveredBlock(c: Unit, j: Job, n: nat)
    requires Working(c, j, n) && Sane(c) && c.core.done
    ensures c.fsm == S_L ==> Dbl(BlockOf(c.core.result)) == j.k1
    ensures c.fsm == S_LAST ==> BlockOf(c.core.result) == j.Tag()
  {
    hide Encrypt;
    hide Dbl;
    hide Finish;
    hide BlockOf;
  }

  lemma ClearMoves(c: Unit, i: In)
    requires i.clear
    ensures var t := Next(c, i);
      && t.fsm == S_IDLE && t.done == (c.fsm == S_LAST && c.core.done)
      && (t.done ==> t.tag == BlockOf(c.core.result))
  {
    hide CoreNext;
    hide Dbl;
    hide BlockOf;
    hide Xor;
  }

  lemma ClearIsSound(c: Unit, q: Request, i: In, precomputed: bool)
    requires Sound(c, q, precomputed) && i.clear
    ensures var t := Next(c, i); Sound(t, q, precomputed) && (t.done ==> t.tag == RightJob(q).Tag())
  {
    hide Sane;
    hide Subkey;
    hide Dbl;
    hide Working;
    hide Next;
    hide BlockOf;
    hide Job.Tag;
    hide Encrypt;
    SaneStep(c, i);
    ClearMoves(c, i);
    ClearWipesExactly(c, i);
    if c.core.done && c.fsm != S_IDLE {
      var n: nat :| Working(c, RightJob(q), n);
      DeliveredBlock(c, RightJob(q), n);
      JobFields(c, RightJob(q), n);
    }
  }

  lemma JobFields(c: Unit, j: Job, n: nat)
    requires Working(c, j, n)
    ensures c.key == j.key && n > 0 && c.fsm != S_IDLE && (c.fsm == S_M1 || c.fsm == S_LAST ==> c.k1 == j.k1)
  {
    hide Encrypt;
    hide Delivers;
  }

  lemma WorkIsSound(c: Unit, q: Request, i: In, precomputed: bool)
    requires Sound(c, q, precomputed) && !i.clear && c.fsm != S_IDLE
    ensures var t := Next(c, i); Sound(t, q, precomputed) && (t.done ==> t.tag == RightJob(q).Tag())
  {
    hide Sane;
    hide Subkey;
    hide Working;
    hide Next;
    hide Job.Tag;
    hide Encrypt;
    SaneStep(c, i);
    var n: nat :| Working(c, RightJob(q), n);
    JobFields(c, RightJob(q), n);
    WorkStep(c, RightJob(q), n, i);
    var t := Next(c, i);
    if n > 1 { JobFields(t, RightJob(q), n - 1); }
  }

  lemma SoundStep(c: Unit, q: Request, i: In, precomputed: bool)
    requires Sound(c, q, precomputed) && Proper(c, i, precomputed)
    ensures var t, q2 := Next(c, i), RequestNext(c, q, i);
      Sound(t, q2, precomputed) && (t.done ==> t.tag == Cmac32(q2.key, q2.m1, q2.m2))
  {
    hide Encrypt;
    hide Subkey;
    if Accepts(c, i) {
      hide Next;
      hide Sound;
      AcceptIsSound(c, q, i, precomputed);
    } else if i.clear {
      hide Next;
      hide Sound;
      ClearIsSound(c, q, i, precomputed);
    } else if c.fsm != S_IDLE {
      hide Next;
      hide Sound;
      WorkIsSound(c, q, i, precomputed);
    } else {
      SaneStep(c, i);
      hide CoreNext;
      hide Sane;
    }
  }

  /**
   * Main result. From reset, in any run in which no request is made into a unit
   * with a start pending and either every request brings its subkey or none does,
   * every tag is the CMAC of the request it answers. Clears may come at any clock.
   */
  lemma {:induction false} EveryTagIsRight(c: Unit, q: Request, ins: seq<In>, precomputed: bool)
    requires Sound(c, q, precomputed)
    ensures TagsAreRight(c, q, ins, precomputed)
    decreases |ins|
  {
    hide Sound;
    hide Next;
    hide Proper;
    hide Cmac32;
    if ins != [] && Proper(c, ins[0], precomputed) {
      SoundStep(c, q, ins[0], precomputed);
      EveryTagIsRight(Next(c, ins[0]), RequestNext(c, q, ins[0]), ins[1..], precomputed);
    }
  }

  lemma ResetIsSound(q: Request, precomputed: bool)
    ensures Sound(RESET, q, precomputed)
  {
  }

  // ------------------------------------------------------------------ the registers

  /** The unit as the clock drives it. */
  class CmacUnit {
    var fsm: CState
    var aesStart: bool
    var aesIn: Block
    var key: Block
    var m2: Block
    var k1: Block
    var cachedKey: Block
    var cachedValid: bool
    var done: bool
    var tag: Block
    var core: Core

    function State(): Unit reads this {
      Unit(fsm, aesStart, aesIn, key, m2, k1, Cache(cachedValid, cachedKey), done, tag, core)
    }

    constructor ()
      ensures State() == RESET
    {
      fsm, aesStart, aesIn, key, m2, k1 := S_IDLE, false, ZERO, ZERO, ZERO, ZERO;
      cachedKey, cachedValid, done, tag, core := ZERO, false, false, ZERO, RESET_CORE;
    }

    /** One clock edge: every right-hand side reads the registers as they were before it. */
    method Step(i: In)
      modifies this
      ensures State() == Next(old(State()), i)
    {
      hide CoreNext;
      hide Dbl;
      hide Xor;
      hide BlockOf;
      var was := State();
      var out := BlockOf(core.result);
      core := CoreNext(was.core, was.start, was.key, was.x);
      aesStart, done := false, false;
      if i.clear {
        cachedValid, cachedKey, k1 := false, ZERO, ZERO;
      }
      if Accepts(was, i) {
        key, m2, aesStart := i.key, i.m2, true;
        if Hit(was, i) {
          aesIn, fsm := i.m1, S_M1;
        } else {
          aesIn, fsm := ZERO, S_L;
        }
        k1 := if i.k1Valid then i.k1 else if Hit(was, i) then was.k1 else i.m1;
      } else if was.core.done {
        match was.fsm
        case S_IDLE =>
        case S_L =>
          aesIn, k1 := was.k1, Dbl(out);
          cachedKey, cachedValid := was.key, true;
          aesStart, fsm := true, S_M1;
        case S_M1 =>
          aesIn, aesStart, fsm := Xor(Xor(out, was.m2), was.k1), true, S_LAST;
        case S_LAST =>
          tag, done, m2, fsm := out, true, ZERO, S_IDLE;
      }
      if i.clear && was.fsm != S_IDLE {
        fsm, m2, key := S_IDLE, ZERO, ZERO;
      }
    }
  }
}
