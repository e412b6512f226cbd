/** From frame control to light: what every driver chip holds when a frame is done. */
module Drivers {
  import opened Spwm
  import opened Waveform
  import opened ShiftChain
  import opened ChainRun
  import opened FetchOrder

  // --- Words on the wire --------------------------------------------------------------------

  /** The register after `k` shifts, and a value doubled `k` times without a width. */
  function Rest(v: int, k: nat): int
    decreases k
  {
    if k == 0 then v else Shl(Rest(v, k - 1))
  }

  function Doubled(v: int, k: nat): int
    decreases k
  {
    if k == 0 then v else 2 * Doubled(v, k - 1)
  }

  lemma {:induction false} RestFromFront(v: int, k: nat)
    ensures Rest(v, k + 1) == Rest(Shl(v), k)
    decreases k
  {
    if k > 0 { RestFromFront(v, k - 1); }
  }

  lemma {:induction false} BitOfRest(v: int, j: nat)
    ensures BitAt(v, j) == (Rest(v, j) >= MSB)
    decreases j
  {
    if j > 0 {
      BitOfRest(Shl(v), j - 1);
      RestFromFront(v, j - 1);
    }
  }

  /** The bits sent so far and the bits still in the register are together the value, shifted. */
  lemma {:induction false} BitsSpell(v: int, k: nat)
    requires Is16(v)
    ensures WORD * Value(BitsFrom(v, k)) + Rest(v, k) == Doubled(v, k) && Is16(Rest(v, k))
    decreases k
  {
    if k > 0 {
      BitsSpell(v, k - 1);
      BitOfRest(v, k - 1);
      assert BitsFrom(v, k)[..k - 1] == BitsFrom(v, k - 1);
    }
  }

  lemma DoubledSixteenTimes(v: int)
    ensures Doubled(v, 16) == WORD * v
  {
    assert Doubled(v, 4) == 16 * v;
    assert Doubled(v, 8) == 256 * v;
    assert Doubled(v, 12) == 4096 * v;
  }

  lemma PowersOfTwo()
    ensures Pow2(16) == WORD
  {
    assert Pow2(4) == 16;
    assert Pow2(8) == 256;
    assert Pow2(12) == 4096;
  }

  /** The sixteen bits of a word spell the word. */
  lemma BitsAreTheWord(v: int)
    requires Is16(v)
    ensures Value(Bits(v)) == v
  {
    BitsSpell(v, 16);
    DoubledSixteenTimes(v);
  }

  /** A value of `g` grey bits goes out zero-padded: the first 16 - g bits are low. */
  lemma {:induction false} PaddedWithZeros(v: int, g: nat, j: nat)
    requires g <= 16 && 0 <= v < Pow2(g) && j + g < 16
    ensures Is16(v) && !BitAt(v, j)
    decreases j
  {
    PowersOfTwo();
    PowMonotone(g + 1, 16);
    if j > 0 {
      PaddedWithZeros(Shl(v), g + 1, j - 1);
    }
  }

  lemma {:induction false} PowMonotone(a: nat, b: nat)
    requires a <= b
    ensures 1 <= Pow2(a) <= Pow2(b)
    decreases b - a, a
  {
    if a < b { PowMonotone(a + 1, b); } else if a > 0 { PowMonotone(a - 1, a - 1); }
  }

  // --- Driver memory ------------------------------------------------------------------------

  /** The drivers' grey-scale memory, one chain image per position, and their common write pointer. */
  datatype Memory = Memory(cells: seq<seq<bool>>, ptr: int)

  /** A data latch: increment, then write. */
  function Commit(m: Memory, content: seq<bool>): Memory
    requires 0 <= m.ptr < |m.cells|
  {
    var p := if m.ptr == |m.cells| - 1 then 0 else m.ptr + 1;
    Memory(m.cells[p := content], p)
  }

  function CommitAll(m: Memory, latches: seq<seq<bool>>): (r: Memory)
    requires 0 <= m.ptr < |m.cells|
    ensures |r.cells| == |m.cells| && 0 <= r.ptr < |r.cells|
  {
    if latches == [] then m else Commit(CommitAll(m, latches[..|latches| - 1]), latches[|latches| - 1])
  }

  /** One frame's latches, starting from the first position, fill every position once and bring the
      pointer back: the last latch wraps to position 0. */
  lemma {:induction false} CommitsLand(m: Memory, latches: seq<seq<bool>>)
    requires m.ptr == 0 && |latches| <= |m.cells| && |m.cells| > 0
    ensures var r := CommitAll(m, latches);
            && r.ptr == (if |latches| == |m.cells| then 0 else |latches|)
            && (forall l | 0 <= l < |latches| && l + 1 < |m.cells| :: r.cells[l + 1] == latches[l])
            && (|latches| == |m.cells| ==> r.cells[0] == latches[|latches| - 1])
    decreases |latches|
  {
    if latches != [] {
      CommitsLand(m, latches[..|latches| - 1]);
    }
  }

  // --- Runs ---------------------------------------------------------------------------------

  predicate ChainTick(c: Cfg, n: nat, run: seq<Regs>, chains: seq<Chain>, ins: seq<In>, t: nat)
    requires t < |ins| && |run| == |chains| == |ins| + 1
  {
    && |ins[t].pix| == c.lines
    && chains[t].bits != [] && n < |run[t].ser.shifts| && |run[t].pre.blk.shift| == 3
    && chains[t + 1] == ChainNext(c, n, run[t], ins[t].start, chains[t])
  }

  /** The drivers on line `n`, beside a run of the stage. */
  predicate IsChainRun(c: Cfg, n: nat, run: seq<Regs>, chains: seq<Chain>, ins: seq<In>) {
    && 1 <= c.sections && |run| == |chains| == |ins| + 1
    && chains[0] == Empty(c)
    && forall t | 0 <= t < |ins| :: ChainTick(c, n, run, chains, ins, t)
  }

  lemma RegsTick(c: Cfg, n: nat, s: Regs, i: In, w: Wave, h: Chain)
    requires Wired(c) && n < c.lines && Shape(c, n, s, w, h) && RegsAt(c, n, s, h) && |i.pix| == c.lines && w.high >= 0
    ensures var s', w', h' := Next(c, s, i), WaveNext(c, s, i.start, w), ChainNext(c, n, s, i.start, h);
            RegsAt(c, n, s', h') && h'.high == w'.high >= 0
  {
    RegsStep(c, n, s, i, w, h);
    HighAgrees(c, n, s, i, w, h);
  }

  /** Lengths and pulse widths, in a run. */
  predicate RunShape(c: Cfg, n: nat, s: Regs, w: Wave, h: Chain) { Shape(c, n, s, w, h) && w.high >= 0 }

  lemma RegsNext(c: Cfg, n: nat, run: seq<Regs>, waves: seq<Wave>, chains: seq<Chain>, ins: seq<In>, t: nat)
    requires Wired(c) && n < c.lines && IsRun(c, run, waves, ins) && IsChainRun(c, n, run, chains, ins) && t < |ins|
    requires RegsAt(c, n, run[t], chains[t]) && RunShape(c, n, run[t], waves[t], chains[t])
    ensures RegsAt(c, n, run[t + 1], chains[t + 1]) && RunShape(c, n, run[t + 1], waves[t + 1], chains[t + 1])
  {
    RunAt(c, run, waves, ins, t + 1);
    assert TickAt(c, run, waves, ins, t) && ChainTick(c, n, run, chains, ins, t);
    RegsTick(c, n, run[t], ins[t], waves[t], chains[t]);
  }

  lemma {:induction false} RegsRunAt(c: Cfg, n: nat, run: seq<Regs>, waves: seq<Wave>, chains: seq<Chain>,
                                     ins: seq<In>, t: nat)
    requires Wired(c) && n < c.lines && IsRun(c, run, waves, ins) && IsChainRun(c, n, run, chains, ins) && t < |run|
    ensures RegsAt(c, n, run[t], chains[t]) && RunShape(c, n, run[t], waves[t], chains[t])
  {
    if t > 0 {
      RegsRunAt(c, n, run, waves, chains, ins, t - 1);
      RegsNext(c, n, run, waves, chains, ins, t - 1);
    }
  }

  /** From clock `from` on, the words taken are the image's. */
  predicate ShowsImage(c: Cfg, n: nat, run: seq<Regs>, ins: seq<In>, from: nat, to: nat)
    requires from <= to <= |ins| < |run|
  {
    forall t | from <= t < to :: ShownOn(c, n, run[t], ins[t])
  }

  lemma {:induction false} WordsRunAt(c: Cfg, n: nat, run: seq<Regs>, waves: seq<Wave>, chains: seq<Chain>,
                                      ins: seq<In>, from: nat, t: nat)
    requires Wired(c) && n < c.lines && IsRun(c, run, waves, ins) && IsChainRun(c, n, run, chains, ins)
    requires from <= t < |run| && run[from].ctl.fsm == Prefix && ShowsImage(c, n, run, ins, from, t)
    ensures n < |run[t].ser.shifts| && WordsAt(c, n, run[t], chains[t])
  {
    RegsRunAt(c, n, run, waves, chains, ins, t);
    if t > from {
      WordsRunAt(c, n, run, waves, chains, ins, from, t - 1);
      RegsRunAt(c, n, run, waves, chains, ins, t - 1);
      assert TickAt(c, run, waves, ins, t - 1) && ChainTick(c, n, run, chains, ins, t - 1);
      WordsStep(c, n, run[t - 1], ins[t - 1], waves[t - 1], chains[t - 1]);
    }
  }

  /** Section s of a committed sweep is that section's own word. */
  lemma SectionOfSweep(c: Cfg, n: nat, l: int, s: int)
    requires 1 <= c.sections && 0 <= s < c.sections
    ensures |Flat(SweepWords(c, n, l))| == 16 * c.sections
    ensures Flat(SweepWords(c, n, l))[16 * s..16 * s + 16] == Bits(Pixel(c, n, l, s))
  {
    FlatAt(SweepWords(c, n, l), s);
  }

  lemma {:induction false} RepeatedAt(x: int, m: nat, s: nat)
    requires s < m
    ensures |Repeated(x, m)| == m && Repeated(x, m)[s] == x
    decreases m
  {
    if m > 1 { RepeatedAt(x, m - 1, if s < m - 1 then s else 0); }
  }

  /** EVERY CHIP GETS ITS OWN REGISTERS. When a frame is done, slot j has put into every chip along every
      line the word of the table row that slot names, on the line's colour lane; and the rotating
      register has moved on by one. */
  lemma EveryChipIsConfigured(c: Cfg, n: nat, run: seq<Regs>, waves: seq<Wave>, chains: seq<Chain>,
                              ins: seq<In>, t: nat, j: int, s: int)
    requires Wired(c) && n < c.lines && IsRun(c, run, waves, ins) && IsChainRun(c, n, run, chains, ins)
    requires t < |ins| && FrameDone(run[t]) && 0 <= j < Slots(c.grammar) && 0 <= s < c.sections
    ensures var h := chains[t + 1];
            && |h.regs| == Slots(c.grammar) && |h.regs[j]| == 16 * c.sections
            && h.regs[j][16 * s..16 * s + 16] == Bits(c.table(TableRow(c.grammar, j, h.reg))[n % 3])
            && run[t + 1].pre.regIndex == NextReg(c.grammar, h.reg)
  {
    RegsRunAt(c, n, run, waves, chains, ins, t);
    RegsRunAt(c, n, run, waves, chains, ins, t + 1);
    assert TickAt(c, run, waves, ins, t);
    var h := chains[t + 1];
    assert RegAt(c, n, h, j);
    var w := RegWord(c, n, j, h.reg);
    RepeatedAt(w, c.sections, s);
    FlatAt(Repeated(w, c.sections), s);
  }

  /** From a clock `from` in the prefix to a clock `t` that ends a frame, and the drivers on line `n`. */
  ghost predicate Span(c: Cfg, n: nat, run: seq<Regs>, waves: seq<Wave>, chains: seq<Chain>, ins: seq<In>, from: nat, t: nat) {
    && Wired(c) && n < c.lines && IsRun(c, run, waves, ins) && IsChainRun(c, n, run, chains, ins)
    && from <= t < |ins| && run[from].ctl.fsm == Prefix && FrameDone(run[t])
  }

  /** A span in which the words taken are the image's. */
  ghost predicate Frame(c: Cfg, n: nat, run: seq<Regs>, waves: seq<Wave>, chains: seq<Chain>, ins: seq<In>, from: nat, t: nat) {
    Span(c, n, run, waves, chains, ins, from, t) && ShowsImage(c, n, run, ins, from, t)
  }

  /** What a done frame has left on line `n`. */
  lemma FrameLeaves(c: Cfg, n: nat, run: seq<Regs>, waves: seq<Wave>, chains: seq<Chain>, ins: seq<In>, from: nat, t: nat)
    requires Frame(c, n, run, waves, chains, ins, from, t)
    ensures LatchesDone(c, n, chains[t + 1], Committed(c, 16 * c.rows))
  {
    assert ChainTick(c, n, run, chains, ins, t) && TickAt(c, run, waves, ins, t);
    WordsRunAt(c, n, run, waves, chains, ins, from, t);
    RegsRunAt(c, n, run, waves, chains, ins, t);
    WordsStep(c, n, run[t], ins[t], waves[t], chains[t]);
  }

  /** CHIP-CHAIN CORRECTNESS. When a frame is done, exactly 16 sweeps per row have been committed after the
      phase latches, and sweep l put into chip s the word of its row, its channel and that chip, zero
      padded, most significant bit first: no sweep has a gap, and none is short, the last included. */
  lemma EveryChipGetsItsWord(c: Cfg, n: nat, run: seq<Regs>, waves: seq<Wave>, chains: seq<Chain>,
                             ins: seq<In>, from: nat, t: nat, l: int, s: int)
    requires Frame(c, n, run, waves, chains, ins, from, t) && c.grammar.latchEn
    requires 0 <= l < 16 * c.rows && 0 <= s < c.sections
    ensures var h := chains[t + 1];
            && |h.latches| == c.grammar.phase + 16 * c.rows
            && |h.latches[c.grammar.phase + l]| == 16 * c.sections
            && h.latches[c.grammar.phase + l][16 * s..16 * s + 16] == Bits(Pixel(c, n, l, s))
            && (Is16(Pixel(c, n, l, s)) ==> Value(Bits(Pixel(c, n, l, s))) == Pixel(c, n, l, s))
  {
    FrameLeaves(c, n, run, waves, chains, ins, from, t);
    assert LatchAt(c, n, chains[t + 1], l);
    SectionOfSweep(c, n, l, s);
    if Is16(Pixel(c, n, l, s)) { BitsAreTheWord(Pixel(c, n, l, s)); }
  }

  /** THE PICTURE ON THE GLASS. With no phase latches, the fetch one sweep ahead and a straight channel
      order, drivers that increment their pointer before they write hold, after any frame, image(row,
      16 * chip + channel) at line `row` and channel `channel`, and their pointer is back where it was. */
  lemma GlassShowsTheImage(c: Cfg, n: nat, run: seq<Regs>, waves: seq<Wave>, chains: seq<Chain>,
                           ins: seq<In>, from: nat, t: nat, m: Memory, row: int, k: int, s: int)
    requires Frame(c, n, run, waves, chains, ins, from, t) && c.grammar.latchEn && c.grammar.phase == 0
    requires OrderOk(c.order) && c.order.adv == 1 && c.order.xor == (if c.order.rev then 15 else 0)
    requires |m.cells| == 16 * c.rows && m.ptr == 0 && 0 <= row < c.rows && 0 <= k < 16 && 0 <= s < c.sections
    ensures var m' := CommitAll(m, chains[t + 1].latches);
            && m'.ptr == 0 && |m'.cells[16 * row + k]| == 16 * c.sections
            && m'.cells[16 * row + k][16 * s..16 * s + 16] == Bits(c.image(row, 16 * s + k, n))
  {
    var p := 16 * row + k;
    var l := if p == 0 then 16 * c.rows - 1 else p - 1;
    EveryChipGetsItsWord(c, n, run, waves, chains, ins, from, t, l, s);
    CommitsLand(m, chains[t + 1].latches);
    AdvanceByOne(c, l, s);
    SweepIndex(row, k);
  }
}
