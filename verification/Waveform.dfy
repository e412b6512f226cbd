/** LAT carries every command in the width of its pulse alone: what a receiver that measures widths
    reads back from any frame. */
module Waveform {
  import opened Spwm

  /** A receiver on the LAT pin: the widths of the pulses that have ended, the pulse and the gap in
      progress, and whether every pulse began after a long enough gap. */
  datatype Wave = Wave(widths: seq<int>, high: int, low: int, spaced: bool)

  const Fresh: Wave := Wave([], 0, 0, true)

  function Hear(w: Wave, lat: bool): Wave {
    if lat then Wave(w.widths, w.high + 1, 0, w.spaced && (w.high > 0 || w.widths == [] || w.low >= 8))
    else if w.high > 0 then Wave(w.widths + [w.high], 0, 1, w.spaced)
    else w.(low := w.low + 1)
  }

  predicate Starts(s: Regs, start: bool) { (s.ctl.fsm == Idle || s.ctl.fsm == Hold) && start }

  /** The receiver listens frame by frame. */
  function WaveNext(c: Cfg, s: Regs, start: bool, w: Wave): Wave {
    if Starts(s, start) then Fresh else Hear(w, Lat(c, s))
  }

  // --- One burst ----------------------------------------------------------------------------

  datatype Order = Order(start: bool, length: int, pad: int)

  /** The emitter under any inputs. */
  predicate IsEmitterRun(run: seq<Cmd>, ins: seq<Order>) {
    && |run| == |ins| + 1
    && forall t | 0 <= t < |ins| :: run[t + 1] == CmdNext(run[t], ins[t].start, ins[t].length, ins[t].pad)
  }

  /** A BURST is high for its length and then low for its pad, none if that is zero, whatever the inputs do after its
      start; and then the emitter is free. */
  lemma {:induction false} BurstExactly(run: seq<Cmd>, ins: seq<Order>, n: nat)
    requires IsEmitterRun(run, ins) && n < |ins| && run[0].fsm == CmdIdle && ins[0].start
    requires 1 <= ins[0].length < 32 && 0 <= ins[0].pad < 32 && n <= ins[0].length + ins[0].pad
    ensures var length, pad := ins[0].length, ins[0].pad;
            run[n + 1] == if n < length then Cmd(High, length - n, pad)
                          else if n < length + pad then Cmd(Pad, length + pad - n, pad)
                          else Cmd(CmdIdle, 0, pad)
  {
    if n > 0 { BurstExactly(run, ins, n - 1); }
    assert run[n + 1] == CmdNext(run[n], ins[n].start, ins[n].length, ins[n].pad);
  }

  // --- What a frame should say --------------------------------------------------------------

  function Rep(x: int, n: int): seq<int>
    decreases n
  {
    if n <= 0 then [] else Rep(x, n - 1) + [x]
  }

  function Bursts(g: Grammar, a: int): seq<int> {
    if a <= 0 then [] else if a == 1 then [V_SYNC]
    else if a == 2 then [V_SYNC, if g.mid then PRE_ACT_MID else PRE_ACT_END]
    else [V_SYNC, PRE_ACT_MID, PRE_ACT_END]
  }

  /** The first `a` bursts, `b` register blocks and `e` data latches. */
  function Said(c: Cfg, a: int, b: int, e: int): seq<int> { Bursts(c.grammar, a) + Rep(REG_LATCH, b) + Rep(1, e) }

  function Latches(c: Cfg, done: int): int { c.grammar.phase + (if c.grammar.latchEn then done else 0) }

  /** VSYNC, the optional middle burst, PRE_ACT, one width per register slot (sixteen for a count of zero),
      then single clocks: the widths the chips tell apart. */
  function Full(c: Cfg): seq<int> {
    (if c.grammar.mid then [3, 11, 14] else [3, 14])
    + Rep(5, if c.grammar.slots == 0 then 16 else c.grammar.slots)
    + Rep(1, c.grammar.phase + (if c.grammar.latchEn then 16 * c.rows else 0))
  }

  // --- Invariant ----------------------------------------------------------------------------

  predicate Reads(c: Cfg, w: Wave, a: int, b: int, e: int) { w.spaced && w.widths == Said(c, a, b, e) }

  predicate CommandAt(c: Cfg, p: Pre, w: Wave) {
    && p.cmd.fsm == CmdIdle && !p.blk.busy && 0 <= p.step <= LastCmd(c.grammar) && p.slot == 0
    && w.high == 0 && (p.step > 0 ==> w.low >= 9) && Reads(c, w, p.step, 0, 0)
  }

  predicate CommandWaitAt(c: Cfg, p: Pre, w: Wave) {
    var k, len := p.cmd, CmdLen(c.grammar, p.step);
    && !p.blk.busy && 0 <= p.step <= LastCmd(c.grammar) && p.slot == 0
    && (k.fsm == High ==> 1 <= k.count <= len && k.padL == CLK_PAD && w.high == len - k.count
                          && (w.high == 0 && p.step > 0 ==> w.low >= CLK_PAD) && Reads(c, w, p.step, 0, 0))
    && (k.fsm == Pad ==> 1 <= k.count <= CLK_PAD
                         && (if k.count == CLK_PAD then w.high == len && Reads(c, w, p.step, 0, 0)
                             else w.high == 0 && w.low == CLK_PAD - k.count && Reads(c, w, p.step + 1, 0, 0)))
    && (k.fsm == CmdIdle ==> w.high == 0 && w.low == CLK_PAD && Reads(c, w, p.step + 1, 0, 0))
  }

  predicate BlockAt(c: Cfg, p: Pre, w: Wave) {
    && p.cmd.fsm == CmdIdle && !p.blk.busy && 0 <= p.slot < Slots(c.grammar)
    && w.high == 0 && w.low >= 1 && Reads(c, w, LastCmd(c.grammar) + 1, p.slot, 0)
  }

  predicate BlockWaitAt(c: Cfg, p: Pre, w: Wave) {
    var left := p.blk.left;
    && p.cmd.fsm == CmdIdle && 0 <= p.slot < Slots(c.grammar)
    && Reads(c, w, LastCmd(c.grammar) + 1, p.slot, 0)
    && (p.blk.busy ==> 1 <= left <= Columns(c)
                       && (if left >= REG_LATCH then w.high == 0 && w.low >= 2 + Columns(c) - left
                           else w.high == REG_LATCH - left))
    && (!p.blk.busy ==> w.high == REG_LATCH)
  }

  predicate PreQuiet(p: Pre) { p.fsm == PreIdle && p.cmd.fsm == CmdIdle && !p.blk.busy }

  predicate PrefixAt(c: Cfg, p: Pre, w: Wave) {
    match p.fsm
    case PreIdle => PreQuiet(p) && w.high == 0 && w.low >= 1 && Reads(c, w, LastCmd(c.grammar) + 1, Slots(c.grammar), 0)
    case Command => CommandAt(c, p, w)
    case CommandWait => CommandWaitAt(c, p, w)
    case Block => BlockAt(c, p, w)
    case BlockWait => BlockWaitAt(c, p, w)
  }

  predicate ReadsAll(c: Cfg, w: Wave, e: int) { Reads(c, w, LastCmd(c.grammar) + 1, Slots(c.grammar), e) }

  predicate PhaseAt(c: Cfg, s: Ctl, w: Wave) {
    && 0 <= s.phaseN <= c.grammar.phase && 0 <= s.gap <= 15
    && 0 <= w.high <= 1 && s.phaseN + w.high <= c.grammar.phase && (w.high == 1 ==> s.gap == 15) && (w.high == 0 ==> w.low >= 15 - s.gap)
    && ReadsAll(c, w, c.grammar.phase - s.phaseN - w.high)
  }

  /** Sweeps whose latch has been given, at a point where the serialiser is shifting. */
  function Done(c: Cfg, s: Ctl): int {
    if s.fsm == Drain then 16 * c.rows - 1
    else if s.sect == 0 then 16 * s.row + s.chan - 1
    else 16 * s.row + s.chan
  }

  predicate Counters(c: Cfg, s: Ctl) {
    0 <= s.sect < c.sections && 0 <= s.chan < 16 && 0 <= s.row < c.rows
  }

  predicate ShiftAt(c: Cfg, s: Ctl, r: Ser, w: Wave) {
    && r.busy && 1 <= r.count <= 16 && Done(c, s) >= w.high
    && (s.fsm == Drain ==> s.sect == 0)
    && 0 <= w.high <= 1 && (w.high == 1 ==> c.grammar.latchEn && r.count == 16)
    && (w.high == 0 ==> w.low >= 15 - r.count)
    && ReadsAll(c, w, Latches(c, Done(c, s) - w.high))
  }

  predicate PixelsAt(c: Cfg, s: Ctl, r: Ser, w: Wave) {
    && Counters(c, s)
    && (!r.busy ==> s.sect == 0 && s.chan == 0 && s.row == 0 && w.high == 0 && w.low >= 1 && ReadsAll(c, w, Latches(c, 0)))
    && (r.busy ==> ShiftAt(c, s, r, w))
  }

  predicate DrainAt(c: Cfg, s: Ctl, r: Ser, w: Wave) {
    && (r.busy ==> ShiftAt(c, s, r, w))
    && (!r.busy ==> w.high == (if c.grammar.latchEn then 1 else 0) && (w.high == 0 ==> w.low >= CLK_PAD) && ReadsAll(c, w, Latches(c, 16 * c.rows - w.high)))
  }

  predicate Home(s: Ctl) { s.sect == 0 && s.chan == 0 && s.row == 0 }

  predicate FrameAt(c: Cfg, s: Regs, w: Wave) {
    match s.ctl.fsm
    case Idle => PreQuiet(s.pre) && !s.ser.busy
    case Prefix => Home(s.ctl) && PreQuiet(s.pre) && !s.ser.busy && w.high == 0 && Reads(c, w, 0, 0, 0)
    case PrefixWait => Home(s.ctl) && PrefixAt(c, s.pre, w) && !s.ser.busy
    case Phase => Home(s.ctl) && PreQuiet(s.pre) && !s.ser.busy && PhaseAt(c, s.ctl, w)
    case Pixels => PreQuiet(s.pre) && PixelsAt(c, s.ctl, s.ser, w)
    case Drain => PreQuiet(s.pre) && DrainAt(c, s.ctl, s.ser, w)
    case Hold => PreQuiet(s.pre) && !s.ser.busy && w.high == 0 && ReadsAll(c, w, Latches(c, 16 * c.rows))
  }

  // --- One tick -----------------------------------------------------------------------------

  lemma SayBurst(c: Cfg, a: int)
    requires 0 <= a <= LastCmd(c.grammar)
    ensures Said(c, a, 0, 0) + [CmdLen(c.grammar, a)] == Said(c, a + 1, 0, 0)
  {
  }

  lemma SayBlock(c: Cfg, a: int, b: int)
    requires 0 <= b
    ensures Said(c, a, b, 0) + [REG_LATCH] == Said(c, a, b + 1, 0)
  {
    assert Rep(REG_LATCH, b + 1) == Rep(REG_LATCH, b) + [REG_LATCH];
  }

  lemma SayLatch(c: Cfg, a: int, b: int, e: int)
    requires 0 <= e
    ensures Said(c, a, b, e) + [1] == Said(c, a, b, e + 1)
  {
    assert Rep(1, e + 1) == Rep(1, e) + [1];
  }

  lemma CommandStep(c: Cfg, p: Pre, w: Wave)
    requires CommandAt(c, p, w) && p.fsm == Command && 1 <= c.sections
    ensures PrefixAt(c, PreNext(c, p, false), Hear(w, PreLat(p)))
  {
  }

  lemma CommandWaitStep(c: Cfg, p: Pre, w: Wave)
    requires CommandWaitAt(c, p, w) && p.fsm == CommandWait && 1 <= c.sections && 1 <= Slots(c.grammar) <= 16
    ensures PrefixAt(c, PreNext(c, p, false), Hear(w, PreLat(p)))
  {
    SayBurst(c, p.step);
  }

  lemma BlockStep(c: Cfg, p: Pre, w: Wave)
    requires BlockAt(c, p, w) && p.fsm == Block && 1 <= c.sections
    ensures PrefixAt(c, PreNext(c, p, false), Hear(w, PreLat(p)))
  {
  }

  lemma BlockWaitStep(c: Cfg, p: Pre, w: Wave)
    requires BlockWaitAt(c, p, w) && p.fsm == BlockWait && 1 <= c.sections && Slots(c.grammar) <= 16
    ensures PrefixAt(c, PreNext(c, p, false), Hear(w, PreLat(p)))
  {
    SayBlock(c, LastCmd(c.grammar) + 1, p.slot);
  }

  lemma PrefixStep(c: Cfg, p: Pre, w: Wave)
    requires PrefixAt(c, p, w) && p.fsm != PreIdle && 1 <= c.sections && 1 <= Slots(c.grammar) <= 16
    ensures PrefixAt(c, PreNext(c, p, false), Hear(w, PreLat(p)))
  {
    match p.fsm
    case Command => CommandStep(c, p, w);
    case CommandWait => CommandWaitStep(c, p, w);
    case Block => BlockStep(c, p, w);
    case BlockWait => BlockWaitStep(c, p, w);
  }

  lemma PhaseStep(c: Cfg, s: Ctl, w: Wave)
    requires s.fsm == Phase && PhaseAt(c, s, w)
    ensures var s', w' := CtlNext(c, s, false, false, false, false), Hear(w, PhaseLat(s));
            if s.phaseN == 0 then s'.fsm == Pixels && w'.high == 0 && w'.low >= 1 && ReadsAll(c, w', c.grammar.phase)
            else s'.fsm == Phase && PhaseAt(c, s', w')
  {
    SayLatch(c, LastCmd(c.grammar) + 1, Slots(c.grammar), c.grammar.phase - s.phaseN - w.high);
  }

  lemma FirstLoad(c: Cfg, s: Ctl, r: Ser, w: Wave, pix: seq<int>)
    requires s.fsm == Pixels && PixelsAt(c, s, r, w) && !r.busy && 1 <= c.rows && 1 <= c.sections
    requires 0 <= c.grammar.phase
    ensures var s', r', w' := CtlNext(c, s, false, false, r.busy, true), SerNext(r, true, pix), Hear(w, false);
            s'.fsm == Pixels && PixelsAt(c, s', r', w')
  {
    assert Done(c, CtlNext(c, s, false, false, r.busy, true)) == 0;
  }

  /** Between loads the word shifts on, and a latch just given ends after one clock. */
  lemma ShiftStep(c: Cfg, s: Ctl, r: Ser, w: Wave)
    requires ShiftAt(c, s, r, w) && r.count > 1 && 0 <= c.grammar.phase
    ensures ShiftAt(c, s, r.(count := r.count - 1, shifts := ShlAll(r.shifts)), Hear(w, false))
  {
    SayLatch(c, LastCmd(c.grammar) + 1, Slots(c.grammar), Latches(c, Done(c, s) - w.high));
  }

  /** Taking the next word completes a sweep exactly when the section counter reads zero. */
  lemma DoneStep(c: Cfg, s: Ctl)
    requires s.fsm == Pixels && Counters(c, s)
    ensures var s' := PixelNext(c, s);
            && Done(c, s') == Done(c, s) + (if s.sect == 0 then 1 else 0)
            && (s'.fsm == Pixels ==> Counters(c, s')) && (s'.fsm == Drain ==> s'.sect == 0)
            && (s'.fsm == Pixels || s'.fsm == Drain)
  {
  }

  lemma LoadStep(c: Cfg, s: Ctl, r: Ser, w: Wave, pix: seq<int>)
    requires s.fsm == Pixels && PixelsAt(c, s, r, w) && r.busy && r.count == 1
    ensures var s' := PixelNext(c, s);
            && ShiftAt(c, s', SerNext(r, true, pix), Hear(w, DataLat(c, s, r)))
            && (s'.fsm == Pixels ==> Counters(c, s')) && (s'.fsm == Pixels || s'.fsm == Drain)
  {
    DoneStep(c, s);
  }

  lemma PixelsStep(c: Cfg, s: Ctl, r: Ser, w: Wave, pix: seq<int>)
    requires s.fsm == Pixels && PixelsAt(c, s, r, w) && 1 <= c.rows && 1 <= c.sections && 0 <= c.grammar.phase
    ensures var s', r' := CtlNext(c, s, false, false, r.busy, Loads(r, true)), SerNext(r, true, pix);
            var w' := Hear(w, DataLat(c, s, r));
            && (s'.fsm == Pixels || s'.fsm == Drain)
            && (s'.fsm == Pixels ==> PixelsAt(c, s', r', w'))
            && (s'.fsm == Drain ==> DrainAt(c, s', r', w'))
  {
    if !r.busy {
      FirstLoad(c, s, r, w, pix);
    } else if r.count == 1 {
      LoadStep(c, s, r, w, pix);
    } else {
      ShiftStep(c, s, r, w);
    }
  }

  lemma DrainStep(c: Cfg, s: Ctl, r: Ser, w: Wave, pix: seq<int>)
    requires s.fsm == Drain && DrainAt(c, s, r, w) && 1 <= c.rows && 0 <= c.grammar.phase
    ensures var r', w' := SerNext(r, false, pix), Hear(w, DataLat(c, s, r));
            if r.busy then DrainAt(c, s, r', w') else !r'.busy && w'.high == 0 && ReadsAll(c, w', Latches(c, 16 * c.rows))
  {
    if r.busy && r.count > 1 {
      ShiftStep(c, s, r, w);
    }
    if !r.busy {
      SayLatch(c, LastCmd(c.grammar) + 1, Slots(c.grammar), Latches(c, 16 * c.rows - w.high));
    }
  }

  predicate Buildable(c: Cfg) {
    1 <= c.sections && 1 <= c.rows && 1 <= c.lines && 0 <= c.grammar.slots < 16 && 0 <= c.grammar.phase
  }

  lemma PrefixTick(c: Cfg, s: Regs, i: In, w: Wave)
    requires Buildable(c) && FrameAt(c, s, w) && s.ctl.fsm == PrefixWait
    ensures FrameAt(c, Next(c, s, i), WaveNext(c, s, i.start, w))
  {
    if s.pre.fsm != PreIdle { PrefixStep(c, s.pre, w); }
  }

  lemma PhaseTick(c: Cfg, s: Regs, i: In, w: Wave)
    requires Buildable(c) && FrameAt(c, s, w) && s.ctl.fsm == Phase
    ensures FrameAt(c, Next(c, s, i), WaveNext(c, s, i.start, w))
  {
    PhaseStep(c, s.ctl, w);
  }

  lemma PixelsTick(c: Cfg, s: Regs, i: In, w: Wave)
    requires Buildable(c) && FrameAt(c, s, w) && s.ctl.fsm == Pixels
    ensures FrameAt(c, Next(c, s, i), WaveNext(c, s, i.start, w))
  {
    PixelsStep(c, s.ctl, s.ser, w, i.pix);
  }

  lemma DrainTick(c: Cfg, s: Regs, i: In, w: Wave)
    requires Buildable(c) && FrameAt(c, s, w) && s.ctl.fsm == Drain
    ensures FrameAt(c, Next(c, s, i), WaveNext(c, s, i.start, w))
  {
    DrainStep(c, s.ctl, s.ser, w, i.pix);
  }

  lemma RestTick(c: Cfg, s: Regs, i: In, w: Wave)
    requires Buildable(c) && FrameAt(c, s, w) && (s.ctl.fsm == Idle || s.ctl.fsm == Hold || s.ctl.fsm == Prefix)
    ensures FrameAt(c, Next(c, s, i), WaveNext(c, s, i.start, w))
  {
  }

  /** ONE TICK keeps the frame's place and what the receiver has read in step. */
  lemma FrameStep(c: Cfg, s: Regs, i: In, w: Wave)
    requires Buildable(c) && FrameAt(c, s, w)
    ensures FrameAt(c, Next(c, s, i), WaveNext(c, s, i.start, w))
  {
    if s.ctl.fsm == PrefixWait { PrefixTick(c, s, i, w); }
    else if s.ctl.fsm == Phase { PhaseTick(c, s, i, w); }
    else if s.ctl.fsm == Pixels { PixelsTick(c, s, i, w); }
    else if s.ctl.fsm == Drain { DrainTick(c, s, i, w); }
    else { RestTick(c, s, i, w); }
  }

  // --- Runs ---------------------------------------------------------------------------------

  predicate TickAt(c: Cfg, run: seq<Regs>, waves: seq<Wave>, ins: seq<In>, t: nat)
    requires 1 <= c.lines && t < |ins| && |run| == |waves| == |ins| + 1
  {
    run[t + 1] == Next(c, run[t], ins[t]) && waves[t + 1] == WaveNext(c, run[t], ins[t].start, waves[t])
  }

  /** The stage from reset, started by any sequence of start levels, with the receiver beside it. */
  predicate IsRun(c: Cfg, run: seq<Regs>, waves: seq<Wave>, ins: seq<In>) {
    && 1 <= c.lines && |run| == |waves| == |ins| + 1
    && run[0] == Reset(c) && waves[0] == Fresh
    && forall t | 0 <= t < |ins| :: TickAt(c, run, waves, ins, t)
  }

  lemma {:induction false} RunAt(c: Cfg, run: seq<Regs>, waves: seq<Wave>, ins: seq<In>, t: nat)
    requires Buildable(c) && IsRun(c, run, waves, ins) && t < |run|
    ensures FrameAt(c, run[t], waves[t])
  {
    if t > 0 {
      RunAt(c, run, waves, ins, t - 1);
      assert TickAt(c, run, waves, ins, t - 1);
      FrameStep(c, run[t - 1], ins[t - 1], waves[t - 1]);
    }
  }

  /** LAT DECODES UNIQUELY. Whenever a frame is done, the widths of its LAT pulses are, in order, VSYNC,
      the middle burst if the chip wants it, PRE_ACT, one register latch per slot (sixteen for a count of
      zero), and then
      latch_phase + 16 * rows single clocks (latch_phase alone with the data latch off); and no pulse
      came sooner than eight low clocks after the one before it. */
  lemma FramesDecode(c: Cfg, run: seq<Regs>, waves: seq<Wave>, ins: seq<In>, t: nat)
    requires Buildable(c) && IsRun(c, run, waves, ins) && t < |ins| && FrameDone(run[t])
    ensures waves[t + 1].widths == Full(c) && waves[t + 1].spaced && waves[t + 1].high == 0
  {
    RunAt(c, run, waves, ins, t);
    RunAt(c, run, waves, ins, t + 1);
    assert TickAt(c, run, waves, ins, t);
  }

  // --- Between frames -----------------------------------------------------------------------

  /** Low clocks in a row just before clock t. */
  function LowsBefore(c: Cfg, run: seq<Regs>, t: nat): nat
    requires t < |run|
  {
    if t == 0 || Lat(c, run[t - 1]) then 0 else LowsBefore(c, run, t - 1) + 1
  }

  /** The receiver's count of low clocks never exceeds the real one. */
  lemma {:induction false} LowsHeard(c: Cfg, run: seq<Regs>, waves: seq<Wave>, ins: seq<In>, t: nat)
    requires IsRun(c, run, waves, ins) && t < |run| && waves[t].high == 0
    ensures LowsBefore(c, run, t) >= waves[t].low
  {
    if t > 0 {
      assert TickAt(c, run, waves, ins, t - 1);
      if waves[t - 1].high == 0 { LowsHeard(c, run, waves, ins, t - 1); }
    }
  }

  /** After a frame is done LAT stays low while the start is withheld. */
  lemma {:induction false} HoldsLow(c: Cfg, run: seq<Regs>, waves: seq<Wave>, ins: seq<In>, t: nat, d: nat)
    requires Buildable(c) && IsRun(c, run, waves, ins) && t + d < |ins| && FrameDone(run[t])
    requires forall j | t < j <= t + d :: !ins[j].start
    ensures run[t + d + 1].ctl.fsm == Hold && LowsBefore(c, run, t + d + 1) == LowsBefore(c, run, t) + d + 1
  {
    RunAt(c, run, waves, ins, t + d);
    assert TickAt(c, run, waves, ins, t + d);
    if d == 0 {
      LastLatch(c, run, waves, ins, t);
    } else {
      HoldsLow(c, run, waves, ins, t, d - 1);
    }
  }

  /** The clock in which a frame is done is low, and follows its last data latch if there are any. */
  lemma LastLatch(c: Cfg, run: seq<Regs>, waves: seq<Wave>, ins: seq<In>, t: nat)
    requires Buildable(c) && IsRun(c, run, waves, ins) && t < |run| && FrameDone(run[t])
    ensures !Lat(c, run[t])
    ensures if c.grammar.latchEn then LowsBefore(c, run, t) == 0 else LowsBefore(c, run, t) >= CLK_PAD
  {
    RunAt(c, run, waves, ins, t);
    if c.grammar.latchEn {
      if t > 0 { assert TickAt(c, run, waves, ins, t - 1); }
    } else {
      LowsHeard(c, run, waves, ins, t);
    }
  }

  /** From the start to the first clock of VSYNC. */
  lemma StartToSync(c: Cfg, run: seq<Regs>, waves: seq<Wave>, ins: seq<In>, t: nat)
    requires Buildable(c) && IsRun(c, run, waves, ins) && t + 3 < |run| && run[t].ctl.fsm == Hold && ins[t].start
    ensures Lat(c, run[t + 3]) && LowsBefore(c, run, t + 3) == LowsBefore(c, run, t) + 3
  {
    RunAt(c, run, waves, ins, t);
    assert TickAt(c, run, waves, ins, t);
    assert TickAt(c, run, waves, ins, t + 1);
    assert TickAt(c, run, waves, ins, t + 2);
    assert LowsBefore(c, run, t + 1) == LowsBefore(c, run, t) + 1;
    assert LowsBefore(c, run, t + 2) == LowsBefore(c, run, t + 1) + 1;
  }

  /** BETWEEN FRAMES. With the start withheld for d clocks, VSYNC comes 4 + d low clocks after the last
      data latch. The spacing CLK_PAD is therefore kept between frames exactly when the start is
      withheld for four clocks or more, or data latches are off. */
  lemma SpacingBetweenFrames(c: Cfg, run: seq<Regs>, waves: seq<Wave>, ins: seq<In>, t: nat, d: nat)
    requires Buildable(c) && IsRun(c, run, waves, ins) && t + d + 4 < |run| && FrameDone(run[t])
    requires (forall j | t < j <= t + d :: !ins[j].start) && ins[t + d + 1].start
    ensures Lat(c, run[t + d + 4])
    ensures c.grammar.latchEn ==> LowsBefore(c, run, t + d + 4) == 4 + d
    ensures LowsBefore(c, run, t + d + 4) >= 8 <==> d >= 4 || !c.grammar.latchEn
  {
    LastLatch(c, run, waves, ins, t);
    HoldsLow(c, run, waves, ins, t, d);
    StartToSync(c, run, waves, ins, t + d + 1);
  }
}
