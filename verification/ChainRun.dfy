/** Every frame, on every data line: each chip gets its register words and its own pixel words. */
module ChainRun {
  import opened Spwm
  import opened Waveform
  import opened ShiftChain

  function NextReg(g: Grammar, r: int): int { if r == g.regCount - 1 then 0 else (r + 1) % MAX_REGS }

  // --- Prefix -------------------------------------------------------------------------------

  ghost predicate PrefixChain(c: Cfg, n: nat, p: Pre, h: Chain)
    requires Wired(c)
  {
    && |p.blk.shift| == 3 && |h.bits| == Columns(c) && h.latches == []
    && (p.fsm == PreIdle ==> RegsDone(c, n, h, Slots(c.grammar)) && p.regIndex == NextReg(c.grammar, h.reg))
    && (p.fsm != PreIdle ==> RegsDone(c, n, h, p.slot) && p.regIndex == h.reg)
    && (p.fsm == BlockWait ==> BlockBits(c, n, p, h))
  }

  function PreLine(p: Pre, n: nat): bool
    requires |p.blk.shift| == 3
  {
    p.blk.busy && p.blk.shift[n % 3] >= MSB
  }

  lemma CommandChain(c: Cfg, n: nat, p: Pre, w: Wave, h: Chain)
    requires Wired(c) && PrefixAt(c, p, w) && PrefixChain(c, n, p, h) && h.high == w.high
    requires p.fsm == Command || p.fsm == CommandWait
    ensures PrefixChain(c, n, PreNext(c, p, false), Clocked(h, PreLat(p), PreLine(p, n)))
  {
    RegsKept(c, n, h, Clocked(h, PreLat(p), PreLine(p, n)), p.slot);
  }

  lemma BlockChain(c: Cfg, n: nat, p: Pre, w: Wave, h: Chain)
    requires Wired(c) && PrefixAt(c, p, w) && PrefixChain(c, n, p, h) && h.high == w.high && p.fsm == Block
    ensures PrefixChain(c, n, PreNext(c, p, false), Clocked(h, PreLat(p), PreLine(p, n)))
  {
    var h' := Clocked(h, PreLat(p), PreLine(p, n));
    RegsKept(c, n, h, h', p.slot);
    BlockBegins(c, n, p, h');
  }

  lemma BlockWaitChain(c: Cfg, n: nat, p: Pre, w: Wave, h: Chain)
    requires Wired(c) && PrefixAt(c, p, w) && PrefixChain(c, n, p, h) && h.high == w.high
    requires p.fsm == BlockWait && p.blk.busy
    ensures PrefixChain(c, n, PreNext(c, p, false), Clocked(h, PreLat(p), PreLine(p, n)))
  {
    RegsKept(c, n, h, Clocked(h, PreLat(p), PreLine(p, n)), p.slot);
    BlockBitsStep(c, n, p, h);
  }

  lemma BlockDoneChain(c: Cfg, n: nat, p: Pre, w: Wave, h: Chain)
    requires Wired(c) && PrefixAt(c, p, w) && PrefixChain(c, n, p, h) && h.high == w.high
    requires p.fsm == BlockWait && !p.blk.busy
    ensures PrefixChain(c, n, PreNext(c, p, false), Clocked(h, PreLat(p), PreLine(p, n)))
  {
    RegCommits(c, n, h, p.slot, false);
  }

  lemma PrefixChainStep(c: Cfg, n: nat, p: Pre, w: Wave, h: Chain)
    requires Wired(c) && PrefixAt(c, p, w) && PrefixChain(c, n, p, h) && h.high == w.high && p.fsm != PreIdle
    ensures PrefixChain(c, n, PreNext(c, p, false), Clocked(h, PreLat(p), PreLine(p, n)))
  {
    if p.fsm == Command || p.fsm == CommandWait { CommandChain(c, n, p, w, h); }
    else if p.fsm == Block { BlockChain(c, n, p, w, h); }
    else if p.blk.busy { BlockWaitChain(c, n, p, w, h); }
    else { BlockDoneChain(c, n, p, w, h); }
  }

  // --- Frame --------------------------------------------------------------------------------

  /** The registers have been sent and the rotation has moved on. */
  ghost predicate Configured(c: Cfg, n: nat, p: Pre, h: Chain)
    requires Wired(c)
  {
    RegsDone(c, n, h, Slots(c.grammar)) && p.regIndex == NextReg(c.grammar, h.reg)
  }

  /** What the chips have of the registers, whatever the pixels are. */
  ghost predicate RegsAt(c: Cfg, n: nat, s: Regs, h: Chain)
    requires Wired(c)
  {
    && n < c.lines == |s.ser.shifts| && |s.pre.blk.shift| == 3 && |h.bits| == Columns(c)
    && (s.ctl.fsm == Prefix ==> h.latches == [] && h.regs == [] && h.reg == s.pre.regIndex)
    && (s.ctl.fsm == PrefixWait ==> PrefixChain(c, n, s.pre, h))
    && (s.ctl.fsm == Phase || s.ctl.fsm == Pixels || s.ctl.fsm == Drain || s.ctl.fsm == Hold ==> Configured(c, n, s.pre, h))
  }

  lemma ConfiguredKept(c: Cfg, n: nat, p: Pre, h: Chain, lat: bool, b: bool)
    requires Wired(c) && Configured(c, n, p, h) && h.bits != [] && h.high <= 1
    ensures Configured(c, n, p, Clocked(h, lat, b))
  {
    RegsKept(c, n, h, Clocked(h, lat, b), Slots(c.grammar));
  }

  lemma RestRegs(c: Cfg, n: nat, s: Regs, i: In, w: Wave, h: Chain)
    requires Wired(c) && FrameAt(c, s, w) && RegsAt(c, n, s, h) && h.high == w.high
    requires s.ctl.fsm == Idle || s.ctl.fsm == Prefix || s.ctl.fsm == Hold
    ensures RegsAt(c, n, Next(c, s, i), ChainNext(c, n, s, i.start, h))
  {
    if s.ctl.fsm == Hold { ConfiguredKept(c, n, s.pre, h, false, Line(s, n)); }
  }

  lemma PrefixWaitRegs(c: Cfg, n: nat, s: Regs, i: In, w: Wave, h: Chain)
    requires Wired(c) && FrameAt(c, s, w) && RegsAt(c, n, s, h) && h.high == w.high && s.ctl.fsm == PrefixWait
    ensures RegsAt(c, n, Next(c, s, i), ChainNext(c, n, s, i.start, h))
  {
    if s.pre.fsm == PreIdle {
      ConfiguredKept(c, n, s.pre, h, false, Line(s, n));
    } else {
      PrefixChainStep(c, n, s.pre, w, h);
    }
  }

  lemma PixelRegs(c: Cfg, n: nat, s: Regs, i: In, w: Wave, h: Chain)
    requires Wired(c) && FrameAt(c, s, w) && RegsAt(c, n, s, h) && h.high == w.high && |i.pix| == c.lines
    requires s.ctl.fsm == Phase || s.ctl.fsm == Pixels || s.ctl.fsm == Drain
    ensures RegsAt(c, n, Next(c, s, i), ChainNext(c, n, s, i.start, h))
  {
    ConfiguredKept(c, n, s.pre, h, Lat(c, s), Line(s, n));
  }

  lemma RegsStep(c: Cfg, n: nat, s: Regs, i: In, w: Wave, h: Chain)
    requires Wired(c) && FrameAt(c, s, w) && RegsAt(c, n, s, h) && h.high == w.high && |i.pix| == c.lines
    ensures RegsAt(c, n, Next(c, s, i), ChainNext(c, n, s, i.start, h))
  {
    if s.ctl.fsm == PrefixWait { PrefixWaitRegs(c, n, s, i, w, h); }
    else if s.ctl.fsm == Phase || s.ctl.fsm == Pixels || s.ctl.fsm == Drain { PixelRegs(c, n, s, i, w, h); }
    else { RestRegs(c, n, s, i, w, h); }
  }

  // --- Pixels -------------------------------------------------------------------------------

  /** What the chips have of the frame's pixels. */
  predicate WordsAt(c: Cfg, n: nat, s: Regs, h: Chain)
    requires Buildable(c) && n < |s.ser.shifts|
  {
    && (s.ctl.fsm == Prefix || s.ctl.fsm == PrefixWait ==> h.latches == [])
    && (s.ctl.fsm == Phase ==> |h.latches| == c.grammar.phase - s.ctl.phaseN - h.high)
    && (s.ctl.fsm == Pixels && !s.ser.busy ==> |h.latches| == c.grammar.phase)
    && ((s.ctl.fsm == Pixels || s.ctl.fsm == Drain) && s.ser.busy ==> ShiftBits(c, n, s.ctl, s.ser, h))
    && (s.ctl.fsm == Drain && !s.ser.busy ==> Before(c, n, 16 * c.rows, h))
    && (s.ctl.fsm == Hold ==> LatchesDone(c, n, h, Committed(c, 16 * c.rows)))
  }

  /** Lengths, and agreement with the receiver on LAT. */
  predicate Shape(c: Cfg, n: nat, s: Regs, w: Wave, h: Chain) {
    && Buildable(c) && FrameAt(c, s, w) && h.high == w.high
    && n < c.lines == |s.ser.shifts| && |s.pre.blk.shift| == 3 && |h.bits| == Columns(c)
  }

  lemma PixelOf(c: Cfg, n: nat, s: Ctl)
    requires 1 <= c.lines && n < c.lines && Counters(c, s)
    ensures PixIn(c, s.row, s.chan, s.sect)[n] == Pixel(c, n, 16 * s.row + s.chan, s.sect)
  {
  }

  /** A word taken is the image's, on line `n`. */
  predicate ShownOn(c: Cfg, n: nat, s: Regs, i: In) {
    && 1 <= c.lines == |i.pix| && n < c.lines
    && (s.ctl.fsm == Pixels && Loads(s.ser, true) ==> i.pix[n] == PixIn(c, s.ctl.row, s.ctl.chan, s.ctl.sect)[n])
  }

  lemma RestWords(c: Cfg, n: nat, s: Regs, i: In, w: Wave, h: Chain)
    requires Shape(c, n, s, w, h) && WordsAt(c, n, s, h)
    requires s.ctl.fsm == Idle || s.ctl.fsm == Prefix || s.ctl.fsm == Hold
    ensures WordsAt(c, n, Next(c, s, i), ChainNext(c, n, s, i.start, h))
  {
    if s.ctl.fsm == Hold && !i.start {
      LatchesKept(c, n, h, ChainNext(c, n, s, i.start, h), Committed(c, 16 * c.rows));
    }
  }

  /** No pulse of the prefix is a data latch. */
  lemma PrefixWords(c: Cfg, n: nat, s: Regs, i: In, w: Wave, h: Chain)
    requires Shape(c, n, s, w, h) && WordsAt(c, n, s, h) && (s.ctl.fsm == PrefixWait || s.ctl.fsm == Phase)
    ensures WordsAt(c, n, Next(c, s, i), ChainNext(c, n, s, i.start, h))
  {
  }

  /** The first word of a frame goes to a chain that has committed nothing yet. */
  lemma FirstWord(c: Cfg, n: nat, s: Regs, i: In, w: Wave, h: Chain)
    requires Shape(c, n, s, w, h) && WordsAt(c, n, s, h) && ShownOn(c, n, s, i)
    requires s.ctl.fsm == Pixels && !s.ser.busy
    ensures WordsAt(c, n, Next(c, s, i), ChainNext(c, n, s, i.start, h))
  {
    var h' := ChainNext(c, n, s, i.start, h);
    PixelOf(c, n, s.ctl);
    PartwayStarts(h'.bits, Pixel(c, n, 0, 0));
    SweepGrows(c, n, 0, 0);
    assert Done(c, PixelNext(c, s.ctl)) == 0;
  }

  /** Between loads nothing but the shift registers moves. */
  lemma OnlyShifts(c: Cfg, s: Regs, i: In)
    requires 1 <= c.lines && PreQuiet(s.pre) && (s.ctl.fsm == Pixels || s.ctl.fsm == Drain) && s.ser.busy && s.ser.count > 1
    ensures Next(c, s, i) == s.(ser := s.ser.(count := s.ser.count - 1, shifts := ShlAll(s.ser.shifts)))
    ensures !Lat(c, s) && !Starts(s, i.start)
  {
  }

  /** A load moves the counters, takes the word, and can give a data latch. */
  lemma OnlyLoads(c: Cfg, s: Regs, i: In)
    requires 1 <= c.lines && PreQuiet(s.pre) && s.ctl.fsm == Pixels && s.ser.busy && s.ser.count == 1
    ensures Next(c, s, i)
         == Regs(PixelNext(c, s.ctl), s.pre, Ser(true, 16, i.pix))
    ensures Lat(c, s) == DataLat(c, s.ctl, s.ser) && !Starts(s, i.start)
  {
  }

  lemma ShiftingWords(c: Cfg, n: nat, s: Regs, i: In, w: Wave, h: Chain)
    requires Shape(c, n, s, w, h) && WordsAt(c, n, s, h)
    requires (s.ctl.fsm == Pixels || s.ctl.fsm == Drain) && s.ser.busy && s.ser.count > 1
    ensures WordsAt(c, n, Next(c, s, i), ChainNext(c, n, s, i.start, h))
  {
    OnlyShifts(c, s, i);
    BitsShift(c, n, s.ctl, s.ser, w, h);
  }

  /** What a load does to the chain. */
  lemma LoadBits(c: Cfg, n: nat, s: Ctl, r: Ser, w: Wave, h: Chain, pix: seq<int>)
    requires Buildable(c) && n < |r.shifts| && n < |pix| && |h.bits| == Columns(c) && h.high == w.high
    requires s.fsm == Pixels && Counters(c, s) && ShiftAt(c, s, r, w) && ShiftBits(c, n, s, r, h) && r.count == 1
    requires pix[n] == Pixel(c, n, 16 * s.row + s.chan, s.sect)
    ensures ShiftBits(c, n, PixelNext(c, s), SerNext(r, true, pix), Clocked(h, DataLat(c, s, r), r.shifts[n] >= MSB))
  {
    DoneStep(c, s);
    if s.sect != 0 {
      BitsNextWord(c, n, s, r, w, h, pix);
    } else {
      BitsNextSweep(c, n, s, r, w, h, pix);
    }
  }

  lemma LoadingWords(c: Cfg, n: nat, s: Regs, i: In, w: Wave, h: Chain)
    requires Shape(c, n, s, w, h) && WordsAt(c, n, s, h) && ShownOn(c, n, s, i)
    requires s.ctl.fsm == Pixels && s.ser.busy && s.ser.count == 1
    ensures WordsAt(c, n, Next(c, s, i), ChainNext(c, n, s, i.start, h))
  {
    OnlyLoads(c, s, i);
    PixelOf(c, n, s.ctl);
    LoadBits(c, n, s.ctl, s.ser, w, h, i.pix);
  }

  /** The last sweep of the frame finishes while draining. */
  lemma LastSweep(c: Cfg, n: nat, s: Ctl, r: Ser, h: Chain)
    requires Buildable(c) && n < |r.shifts| && |h.bits| == Columns(c) && ShiftBits(c, n, s, r, h)
    requires s.fsm == Drain && s.sect == 0 && r.count == 1 && h.high == 0
    ensures Before(c, n, 16 * c.rows, Clocked(h, c.grammar.latchEn, r.shifts[n] >= MSB))
  {
    var l, h' := 16 * c.rows - 1, Clocked(h, c.grammar.latchEn, r.shifts[n] >= MSB);
    assert SweepWords(c, n, l)[..c.sections] == SweepWords(c, n, l);
    PartwayEnds(h.bits, r.shifts[n], Flat(SweepWords(c, n, l)));
    LatchesKept(c, n, h, h', Committed(c, l));
  }

  lemma DrainWords(c: Cfg, n: nat, s: Regs, i: In, w: Wave, h: Chain)
    requires Shape(c, n, s, w, h) && WordsAt(c, n, s, h)
    requires s.ctl.fsm == Drain && (s.ser.busy ==> s.ser.count == 1)
    ensures WordsAt(c, n, Next(c, s, i), ChainNext(c, n, s, i.start, h))
  {
    if s.ser.busy {
      LastSweep(c, n, s.ctl, s.ser, h);
    } else {
      BeforeSettles(c, n, 16 * c.rows, h, Line(s, n));
    }
  }

  /** ONE TICK keeps the chain's contents in step with the frame. */
  lemma WordsStep(c: Cfg, n: nat, s: Regs, i: In, w: Wave, h: Chain)
    requires Shape(c, n, s, w, h) && WordsAt(c, n, s, h) && ShownOn(c, n, s, i)
    ensures WordsAt(c, n, Next(c, s, i), ChainNext(c, n, s, i.start, h))
  {
    if s.ctl.fsm == PrefixWait || s.ctl.fsm == Phase { PrefixWords(c, n, s, i, w, h); }
    else if s.ctl.fsm == Pixels && !s.ser.busy { FirstWord(c, n, s, i, w, h); }
    else if s.ctl.fsm == Pixels && s.ser.count == 1 { LoadingWords(c, n, s, i, w, h); }
    else if s.ctl.fsm == Drain && (s.ser.busy ==> s.ser.count == 1) { DrainWords(c, n, s, i, w, h); }
    else if s.ctl.fsm == Pixels || s.ctl.fsm == Drain { ShiftingWords(c, n, s, i, w, h); }
    else { RestWords(c, n, s, i, w, h); }
  }

  lemma HighAgrees(c: Cfg, n: nat, s: Regs, i: In, w: Wave, h: Chain)
    requires h.bits != [] && n < |s.ser.shifts| && |s.pre.blk.shift| == 3 && h.high == w.high
    requires w.high >= 0
    ensures ChainNext(c, n, s, i.start, h).high == WaveNext(c, s, i.start, w).high >= 0
  {
  }
}
