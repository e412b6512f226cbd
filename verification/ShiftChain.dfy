/** The driver chips on one data line: a shift chain that commits what it holds when LAT falls. */
module ShiftChain {
  import opened Spwm
  import opened Waveform

  /** The chain's bits, oldest first; the pulse in progress and what the chain held at its last high
      clock; and what was committed this frame by register latches and by data latches. `reg` is the
      rotating register index the frame began with. */
  datatype Chain = Chain(bits: seq<bool>, high: int, content: seq<bool>,
                         regs: seq<seq<bool>>, latches: seq<seq<bool>>, reg: int)

  function Empty(c: Cfg): Chain
    requires 1 <= c.sections
  {
    Chain(seq(Columns(c), k => false), 0, [], [], [], 0)
  }

  function Shifted(bits: seq<bool>, b: bool): seq<bool>
    requires bits != []
  {
    bits[1..] + [b]
  }

  /** A clock shifts one bit in; a pulse of five commits a register, a pulse of one commits data. */
  function Clocked(h: Chain, lat: bool, b: bool): Chain
    requires h.bits != []
  {
    var bits := Shifted(h.bits, b);
    if lat then h.(bits := bits, high := h.high + 1, content := bits)
    else if h.high == 5 then h.(bits := bits, high := 0, regs := h.regs + [h.content])
    else if h.high == 1 then h.(bits := bits, high := 0, latches := h.latches + [h.content])
    else h.(bits := bits, high := 0)
  }

  function ChainNext(c: Cfg, n: nat, s: Regs, start: bool, h: Chain): Chain
    requires h.bits != [] && n < |s.ser.shifts| && |s.pre.blk.shift| == 3
  {
    var h' := Clocked(h, Lat(c, s), Line(s, n));
    if Starts(s, start) then h'.(high := 0, regs := [], latches := [], reg := s.pre.regIndex) else h'
  }

  // --- Words and bits -----------------------------------------------------------------------

  /** The bit a shift register with value `v` puts out after `j` shifts. */
  predicate BitAt(v: int, j: nat)
    decreases j
  {
    if j == 0 then v >= MSB else BitAt(Shl(v), j - 1)
  }

  /** The next `k` bits it puts out. */
  function BitsFrom(v: int, k: nat): seq<bool> { seq(k, j requires 0 <= j < k => BitAt(v, j)) }

  lemma BitsShiftOut(v: int, k: nat)
    requires k >= 1
    ensures BitsFrom(v, k) == [v >= MSB] + BitsFrom(Shl(v), k - 1)
  {
  }

  function Bits(v: int): seq<bool> { BitsFrom(v, 16) }

  function Flat(words: seq<int>): seq<bool> {
    if words == [] then [] else Flat(words[..|words| - 1]) + Bits(words[|words| - 1])
  }

  /** The value of bits sent most significant first. */
  function Value(bits: seq<bool>): int {
    if bits == [] then 0 else 2 * Value(bits[..|bits| - 1]) + (if bits[|bits| - 1] then 1 else 0)
  }

  function Pow2(k: nat): int { if k == 0 then 1 else 2 * Pow2(k - 1) }

  lemma {:induction false} FlatLength(words: seq<int>)
    ensures |Flat(words)| == 16 * |words|
  {
    if words != [] {
      FlatLength(words[..|words| - 1]);
    }
  }

  lemma {:induction false} FlatAt(words: seq<int>, j: nat)
    requires j < |words|
    ensures |Flat(words)| == 16 * |words|
    ensures Flat(words)[16 * j..16 * j + 16] == Bits(words[j])
    decreases |words|
  {
    var front := words[..|words| - 1];
    FlatLength(words);
    FlatLength(front);
    if j < |words| - 1 {
      FlatAt(front, j);
      assert Flat(words)[16 * j..16 * j + 16] == Flat(front)[16 * j..16 * j + 16];
    }
  }

  // --- What the chain should hold -----------------------------------------------------------

  /** The pixel a sweep has for a section: sweep l is channel l % 16 of row l / 16. */
  function Pixel(c: Cfg, n: nat, l: int, j: int): int {
    c.image(RowA(c, l / 16, l % 16), Column(c.order, l % 16, j), n)
  }

  function SweepWords(c: Cfg, n: nat, l: int): seq<int>
    requires 1 <= c.sections
  {
    seq(c.sections, j => Pixel(c, n, l, j))
  }

  function Repeated(x: int, m: nat): seq<int> { if m == 0 then [] else Repeated(x, m - 1) + [x] }

  function RegWord(c: Cfg, n: nat, slot: int, reg: int): int
    requires |c.table(TableRow(c.grammar, slot, reg))| == 3
  {
    c.table(TableRow(c.grammar, slot, reg))[n % 3]
  }

  /** The chain's last `k` bits and what is still to come are `whole`. */
  predicate Partway(bits: seq<bool>, k: int, v: int, left: int, whole: seq<bool>) {
    0 <= k <= |bits| && 0 <= left && bits[|bits| - k..] + BitsFrom(v, left) == whole
  }

  lemma PartwayShifts(bits: seq<bool>, k: int, v: int, left: int, whole: seq<bool>)
    requires Partway(bits, k, v, left, whole) && left >= 1 && k < |bits|
    ensures Partway(Shifted(bits, v >= MSB), k + 1, Shl(v), left - 1, whole)
  {
    BitsShiftOut(v, left);
    var b, t := v >= MSB, bits[|bits| - k..];
    var bits' := Shifted(bits, b);
    assert bits'[|bits'| - (k + 1)..] == t + [b];
    assert t + ([b] + BitsFrom(Shl(v), left - 1)) == (t + [b]) + BitsFrom(Shl(v), left - 1);
  }

  /** The next word of the same train follows the last bit of the one before. */
  lemma PartwayLoads(bits: seq<bool>, k: int, v: int, words: seq<int>, word: int)
    requires Partway(bits, k, v, 1, Flat(words)) && k < |bits|
    ensures Partway(Shifted(bits, v >= MSB), k + 1, word, 16, Flat(words + [word]))
  {
    PartwayShifts(bits, k, v, 1, Flat(words));
    var bits' := Shifted(bits, v >= MSB);
    var t := bits'[|bits'| - (k + 1)..];
    assert t + BitsFrom(Shl(v), 0) == t;
    FlatGrows(words, word);
  }

  lemma FlatGrows(words: seq<int>, word: int)
    ensures Flat(words + [word]) == Flat(words) + Bits(word)
  {
    assert (words + [word])[..|words|] == words;
  }

  lemma PartwayEnds(bits: seq<bool>, v: int, whole: seq<bool>)
    requires bits != [] && Partway(bits, |bits| - 1, v, 1, whole)
    ensures Shifted(bits, v >= MSB) == whole
  {
    PartwayShifts(bits, |bits| - 1, v, 1, whole);
    var bits' := Shifted(bits, v >= MSB);
    assert bits'[0..] + [] == bits';
  }

  lemma PartwayStarts(bits: seq<bool>, word: int)
    ensures Partway(bits, 0, word, 16, Flat([word]))
  {
    assert [word][..0] == [];
    assert bits[|bits|..] + Bits(word) == Flat([]) + Bits(word);
  }

  // --- Invariant ----------------------------------------------------------------------------

  function RegContent(c: Cfg, n: nat, slot: int, reg: int): seq<bool>
    requires Wired(c)
  {
    Flat(Repeated(RegWord(c, n, slot, reg), c.sections))
  }

  /** The table has a word for each of the three colour lanes. */
  ghost predicate Wired(c: Cfg) { Buildable(c) && forall a :: |c.table(a)| == 3 }

  predicate RegAt(c: Cfg, n: nat, h: Chain, j: int)
    requires |c.table(TableRow(c.grammar, j, h.reg))| == 3 && 0 <= c.sections
  {
    0 <= j < |h.regs| && h.regs[j] == Flat(Repeated(RegWord(c, n, j, h.reg), c.sections))
  }

  ghost predicate RegsDone(c: Cfg, n: nat, h: Chain, b: int)
    requires Wired(c)
  {
    |h.regs| == b && forall j | 0 <= j < b :: RegAt(c, n, h, j)
  }

  predicate LatchAt(c: Cfg, n: nat, h: Chain, l: int)
    requires Buildable(c)
  {
    0 <= c.grammar.phase + l < |h.latches| && h.latches[c.grammar.phase + l] == Flat(SweepWords(c, n, l))
  }

  predicate LatchesDone(c: Cfg, n: nat, h: Chain, e: int)
    requires Buildable(c)
  {
    |h.latches| == c.grammar.phase + e && forall l | 0 <= l < e :: LatchAt(c, n, h, l)
  }

  /** While a register block is shifting: so many bits of the repeated word are on the chain. */
  ghost predicate BlockBits(c: Cfg, n: nat, p: Pre, h: Chain)
    requires Wired(c) && |p.blk.shift| == 3
  {
    var w, k := RegWord(c, n, p.slot, p.regIndex), Columns(c) - p.blk.left;
    var m := (k + p.blk.bit + 1) / 16;
    if p.blk.busy then
      && 0 <= p.blk.bit <= 15 && 1 <= p.blk.left <= Columns(c) && 16 * m == k + p.blk.bit + 1 && 1 <= m <= c.sections
      && Partway(h.bits, k, p.blk.shift[n % 3], p.blk.bit + 1, Flat(Repeated(w, m)))
    else h.content == Flat(Repeated(w, c.sections))
  }

  /** Words of the sweep on the chain taken so far, the one being shifted included. */
  function Taken(c: Cfg, s: Ctl): int { if s.sect == 0 || s.fsm == Drain then c.sections else s.sect }

  /** Sweeps committed when `done` latches have been given. */
  function Committed(c: Cfg, done: int): int { if c.grammar.latchEn then done else 0 }

  /** `m` words of sweep `l` have been taken: they are on the chain but for the last `count` bits. */
  predicate TrainOf(c: Cfg, n: nat, l: int, m: int, v: int, count: int, bits: seq<bool>)
    requires Buildable(c)
  {
    && 1 <= m <= c.sections && 1 <= count <= 16
    && Partway(bits, 16 * m - count, v, count, Flat(SweepWords(c, n, l)[..m]))
  }

  /** The sweep being shifted: its words so far are on the chain or still to come. */
  predicate Train(c: Cfg, n: nat, s: Ctl, r: Ser, bits: seq<bool>)
    requires Buildable(c) && n < |r.shifts|
  {
    TrainOf(c, n, Done(c, s), Taken(c, s), r.shifts[n], r.count, bits)
  }

  /** Every sweep before sweep `l` is committed, or is on LAT right now. */
  predicate Before(c: Cfg, n: nat, l: int, h: Chain)
    requires Buildable(c)
  {
    && LatchesDone(c, n, h, Committed(c, l - h.high))
    && (h.high == 1 ==> h.content == Flat(SweepWords(c, n, l - 1)))
  }

  predicate ShiftBits(c: Cfg, n: nat, s: Ctl, r: Ser, h: Chain)
    requires Buildable(c) && n < |r.shifts|
  {
    Train(c, n, s, r, h.bits) && Before(c, n, Done(c, s), h)
  }

  // --- Shifting pixels ----------------------------------------------------------------------

  lemma LatchCommits(c: Cfg, n: nat, h: Chain, e: int, b: bool)
    requires Buildable(c) && h.bits != [] && LatchesDone(c, n, h, e) && 0 <= e
    requires h.high == 1 && h.content == Flat(SweepWords(c, n, e))
    ensures LatchesDone(c, n, Clocked(h, false, b), e + 1)
  {
    var h' := Clocked(h, false, b);
    forall l | 0 <= l < e + 1
      ensures LatchAt(c, n, h', l)
    {
      if l < e { assert LatchAt(c, n, h, l); }
    }
  }

  lemma LatchesKept(c: Cfg, n: nat, h: Chain, h': Chain, e: int)
    requires Buildable(c) && LatchesDone(c, n, h, e) && h'.latches == h.latches
    ensures LatchesDone(c, n, h', e)
  {
    forall l | 0 <= l < e
      ensures LatchAt(c, n, h', l)
    {
      assert LatchAt(c, n, h, l);
    }
  }

  lemma BeforeSettles(c: Cfg, n: nat, l: int, h: Chain, b: bool)
    requires Buildable(c) && h.bits != [] && Before(c, n, l, h) && 0 <= h.high <= 1 && h.high <= l
    requires h.high == 1 ==> c.grammar.latchEn
    ensures Before(c, n, l, Clocked(h, false, b))
  {
    if h.high == 1 {
      LatchCommits(c, n, h, l - 1, b);
    } else {
      LatchesKept(c, n, h, Clocked(h, false, b), Committed(c, l));
    }
  }

  lemma TrainShift(c: Cfg, n: nat, l: int, m: int, v: int, count: int, bits: seq<bool>)
    requires Buildable(c) && |bits| == Columns(c) && TrainOf(c, n, l, m, v, count, bits) && count > 1
    ensures TrainOf(c, n, l, m, Shl(v), count - 1, Shifted(bits, v >= MSB))
  {
    PartwayShifts(bits, 16 * m - count, v, count, Flat(SweepWords(c, n, l)[..m]));
  }

  lemma TrainGrows(c: Cfg, n: nat, l: int, m: int, v: int, bits: seq<bool>)
    requires Buildable(c) && |bits| == Columns(c) && TrainOf(c, n, l, m, v, 1, bits) && m < c.sections
    ensures TrainOf(c, n, l, m + 1, Pixel(c, n, l, m), 16, Shifted(bits, v >= MSB))
  {
    SweepGrows(c, n, l, m);
    PartwayLoads(bits, 16 * m - 1, v, SweepWords(c, n, l)[..m], Pixel(c, n, l, m));
  }

  lemma BitsShift(c: Cfg, n: nat, s: Ctl, r: Ser, w: Wave, h: Chain)
    requires Buildable(c) && n < |r.shifts| && |h.bits| == Columns(c) && h.high == w.high
    requires ShiftAt(c, s, r, w) && ShiftBits(c, n, s, r, h) && r.count > 1
    ensures ShiftBits(c, n, s, r.(count := r.count - 1, shifts := ShlAll(r.shifts)), Clocked(h, false, r.shifts[n] >= MSB))
  {
    TrainShift(c, n, Done(c, s), Taken(c, s), r.shifts[n], r.count, h.bits);
    BeforeSettles(c, n, Done(c, s), h, r.shifts[n] >= MSB);
  }

  lemma SweepGrows(c: Cfg, n: nat, l: int, m: int)
    requires 1 <= c.sections && 0 <= m < c.sections
    ensures SweepWords(c, n, l)[..m + 1] == SweepWords(c, n, l)[..m] + [Pixel(c, n, l, m)]
  {
  }

  lemma TrainNextWord(c: Cfg, n: nat, s: Ctl, r: Ser, bits: seq<bool>, pix: seq<int>)
    requires Buildable(c) && n < |r.shifts| && n < |pix| && |bits| == Columns(c)
    requires s.fsm == Pixels && Counters(c, s) && Train(c, n, s, r, bits) && r.busy && r.count == 1
    requires s.sect != 0 && pix[n] == Pixel(c, n, Done(c, s), s.sect)
    ensures Train(c, n, PixelNext(c, s), SerNext(r, true, pix), Shifted(bits, r.shifts[n] >= MSB))
  {
    DoneStep(c, s);
    TrainGrows(c, n, Done(c, s), s.sect, r.shifts[n], bits);
  }

  /** Within a sweep the next section's word follows. */
  lemma BitsNextWord(c: Cfg, n: nat, s: Ctl, r: Ser, w: Wave, h: Chain, pix: seq<int>)
    requires Buildable(c) && n < |r.shifts| && n < |pix| && |h.bits| == Columns(c) && h.high == w.high
    requires s.fsm == Pixels && Counters(c, s) && ShiftAt(c, s, r, w) && ShiftBits(c, n, s, r, h) && r.count == 1
    requires s.sect != 0 && pix[n] == Pixel(c, n, Done(c, s), s.sect)
    ensures ShiftBits(c, n, PixelNext(c, s), SerNext(r, true, pix), Clocked(h, false, r.shifts[n] >= MSB))
  {
    TrainNextWord(c, n, s, r, h.bits, pix);
    DoneStep(c, s);
    BeforeSettles(c, n, Done(c, s), h, r.shifts[n] >= MSB);
  }

  /** At the end of a sweep the chain holds exactly its words, and the next sweep's first word follows. */
  lemma BitsNextSweep(c: Cfg, n: nat, s: Ctl, r: Ser, w: Wave, h: Chain, pix: seq<int>)
    requires Buildable(c) && n < |r.shifts| && n < |pix| && |h.bits| == Columns(c) && h.high == w.high
    requires s.fsm == Pixels && Counters(c, s) && ShiftAt(c, s, r, w) && ShiftBits(c, n, s, r, h) && r.count == 1
    requires s.sect == 0 && pix[n] == Pixel(c, n, Done(c, s) + 1, 0)
    ensures ShiftBits(c, n, PixelNext(c, s), SerNext(r, true, pix), Clocked(h, c.grammar.latchEn, r.shifts[n] >= MSB))
  {
    var l, b := Done(c, s), r.shifts[n] >= MSB;
    DoneStep(c, s);
    assert SweepWords(c, n, l)[..c.sections] == SweepWords(c, n, l);
    PartwayEnds(h.bits, r.shifts[n], Flat(SweepWords(c, n, l)));
    SweepGrows(c, n, l + 1, 0);
    PartwayStarts(Shifted(h.bits, b), pix[n]);
    LatchesKept(c, n, h, Clocked(h, c.grammar.latchEn, b), Committed(c, l));
  }

  // --- Shifting register words --------------------------------------------------------------

  lemma BlockBegins(c: Cfg, n: nat, p: Pre, h: Chain)
    requires Wired(c) && p.fsm == Block && !p.blk.busy && |p.blk.shift| == 3
    ensures BlockBits(c, n, PreNext(c, p, false), h)
  {
    var w := RegWord(c, n, p.slot, p.regIndex);
    assert Repeated(w, 1) == Repeated(w, 0) + [w] == [w];
    PartwayStarts(h.bits, w);
  }

  lemma BlockShifts(c: Cfg, p: Pre)
    requires p.fsm == BlockWait && p.blk.busy && p.blk.bit > 0 && p.blk.left > 1
    ensures PreNext(c, p, false).blk == Blk(true, p.blk.bit - 1, p.blk.left - 1, ShlAll(p.blk.shift))
    ensures PreNext(c, p, false).slot == p.slot && PreNext(c, p, false).regIndex == p.regIndex
  {
  }

  lemma BlockWordGoesOn(c: Cfg, n: nat, p: Pre, h: Chain, lat: bool)
    requires Wired(c) && |p.blk.shift| == 3 && |h.bits| == Columns(c) && BlockBits(c, n, p, h)
    requires p.fsm == BlockWait && p.blk.busy && p.blk.bit > 0
    ensures BlockBits(c, n, PreNext(c, p, false), Clocked(h, lat, p.blk.shift[n % 3] >= MSB))
  {
    BlockShifts(c, p);
    var w, k := RegWord(c, n, p.slot, p.regIndex), Columns(c) - p.blk.left;
    var m := (k + p.blk.bit + 1) / 16;
    PartwayShifts(h.bits, k, p.blk.shift[n % 3], p.blk.bit + 1, Flat(Repeated(w, m)));
    assert ShlAll(p.blk.shift)[n % 3] == Shl(p.blk.shift[n % 3]);
  }

  lemma BlockWordEnds(c: Cfg, n: nat, p: Pre, h: Chain, lat: bool)
    requires Wired(c) && |p.blk.shift| == 3 && |h.bits| == Columns(c) && BlockBits(c, n, p, h)
    requires p.fsm == BlockWait && p.blk.busy && p.blk.bit == 0 && p.blk.left > 1
    ensures BlockBits(c, n, PreNext(c, p, false), Clocked(h, lat, p.blk.shift[n % 3] >= MSB))
  {
    var w, k := RegWord(c, n, p.slot, p.regIndex), Columns(c) - p.blk.left;
    var m := (k + 1) / 16;
    PartwayLoads(h.bits, k, p.blk.shift[n % 3], Repeated(w, m), w);
    assert Repeated(w, m) + [w] == Repeated(w, m + 1);
  }

  lemma BlockEnds(c: Cfg, n: nat, p: Pre, h: Chain)
    requires Wired(c) && |p.blk.shift| == 3 && |h.bits| == Columns(c) && BlockBits(c, n, p, h)
    requires p.fsm == BlockWait && p.blk.busy && p.blk.left == 1
    ensures BlockBits(c, n, PreNext(c, p, false), Clocked(h, true, p.blk.shift[n % 3] >= MSB))
  {
    var w := RegWord(c, n, p.slot, p.regIndex);
    PartwayEnds(h.bits, p.blk.shift[n % 3], Flat(Repeated(w, c.sections)));
  }

  lemma BlockBitsStep(c: Cfg, n: nat, p: Pre, h: Chain)
    requires Wired(c) && |p.blk.shift| == 3 && |h.bits| == Columns(c) && BlockBits(c, n, p, h)
    requires p.fsm == BlockWait && p.blk.busy
    ensures BlockBits(c, n, PreNext(c, p, false), Clocked(h, BlkLat(p.blk), p.blk.shift[n % 3] >= MSB))
  {
    if p.blk.left == 1 { BlockEnds(c, n, p, h); }
    else if p.blk.bit > 0 { BlockWordGoesOn(c, n, p, h, BlkLat(p.blk)); }
    else { BlockWordEnds(c, n, p, h, BlkLat(p.blk)); }
  }

  lemma RegsKept(c: Cfg, n: nat, h: Chain, h': Chain, b: int)
    requires Wired(c) && RegsDone(c, n, h, b) && h'.regs == h.regs && h'.reg == h.reg
    ensures RegsDone(c, n, h', b)
  {
    forall j | 0 <= j < b
      ensures RegAt(c, n, h', j)
    {
      assert RegAt(c, n, h, j);
    }
  }

  lemma RegCommits(c: Cfg, n: nat, h: Chain, slot: int, b: bool)
    requires Wired(c) && h.bits != [] && RegsDone(c, n, h, slot) && 0 <= slot && h.high == REG_LATCH
    requires h.content == RegContent(c, n, slot, h.reg)
    ensures RegsDone(c, n, Clocked(h, false, b), slot + 1)
  {
    var h' := Clocked(h, false, b);
    forall j | 0 <= j < slot + 1
      ensures RegAt(c, n, h', j)
    {
      if j < slot { assert RegAt(c, n, h, j); }
    }
  }
}
