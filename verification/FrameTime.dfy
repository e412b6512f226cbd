/** How long a frame takes, to the clock; and so that every frame started is finished. */
module FrameTime {
  import opened Spwm
  import opened Waveform

  function Times(n: int, k: int): int
    decreases n
  {
    if n <= 0 then 0 else k + Times(n - 1, k)
  }

  lemma {:induction false} TimesIs(n: int, k: int)
    requires 0 <= n
    ensures Times(n, k) == n * k
    decreases n
  {
    if n > 0 {
      TimesIs(n - 1, k);
      assert n * k == k + (n - 1) * k;
    }
  }

  // --- The predictor ------------------------------------------------------------------------

  const PRE_ACT1: int := 11
  const PRE_ACT2: int := 14

  /** `frame_clocks`, the basis of every rate estimate. */
  function FrameClocks(columns: int, rows: int): int {
    var overhead := 3 * 2 + 5 * 2 + 4;
    var prefix := V_SYNC + CLK_PAD + PRE_ACT1 + CLK_PAD + PRE_ACT2 + CLK_PAD + 5 * columns + overhead;
    prefix + columns * rows * 16
  }

  // --- Clocks still to go -------------------------------------------------------------------

  function WordsLeft(c: Cfg, s: Ctl): int {
    Times(c.rows - 1 - s.row, Columns(c)) + Times(15 - s.chan, c.sections) + c.sections - s.sect
  }

  function PixelsLeft(c: Cfg, s: Ctl, r: Ser): int { (if r.busy then r.count else 1) + 16 * WordsLeft(c, s) }

  /** From the first clock of the pixel phase. */
  function AllPixels(c: Cfg): int { 1 + 16 * Times(c.rows, Columns(c)) }

  function PhaseLeft(c: Cfg, s: Ctl): int {
    1 + AllPixels(c) + (if s.phaseN == 0 then 0 else s.gap + 1 + 16 * (s.phaseN - 1))
  }

  /** From the clock in which the prefix is seen to be done. */
  function AfterPrefix(c: Cfg): int { 2 + AllPixels(c) + 16 * c.grammar.phase }

  /** From the clock in which slot `slot` is seen to be done. */
  function AfterBlock(c: Cfg, slot: int): int { 1 + Times(Slots(c.grammar) - 1 - slot, Columns(c) + 2) + AfterPrefix(c) }

  /** From the clock in which command `step` is seen to be done. */
  function AfterCommand(c: Cfg, step: int): int {
    1 + (if step == 0 && c.grammar.mid then PRE_ACT_MID + PRE_ACT_END + 20
         else if step < LastCmd(c.grammar) then PRE_ACT_END + 10 else 0)
    + Times(Slots(c.grammar), Columns(c) + 2) + AfterPrefix(c)
  }

  function PrefixLeft(c: Cfg, p: Pre): int {
    match p.fsm
    case PreIdle => AfterPrefix(c)
    case Command => 1 + CmdLen(c.grammar, p.step) + CLK_PAD + AfterCommand(c, p.step)
    case CommandWait =>
      (if p.cmd.fsm == High then p.cmd.count + CLK_PAD else if p.cmd.fsm == Pad then p.cmd.count else 0)
      + AfterCommand(c, p.step)
    case Block => 1 + Columns(c) + AfterBlock(c, p.slot)
    case BlockWait => (if p.blk.busy then p.blk.left else 0) + AfterBlock(c, p.slot)
  }

  /** A whole frame, from the clock after `start` is taken. */
  function FrameTicks(c: Cfg): int { 1 + 1 + V_SYNC + CLK_PAD + AfterCommand(c, 0) }

  /** Clocks until the one in which the frame is done. */
  function Left(c: Cfg, s: Regs): int {
    match s.ctl.fsm
    case Idle => 0
    case Prefix => FrameTicks(c)
    case PrefixWait => PrefixLeft(c, s.pre)
    case Phase => PhaseLeft(c, s.ctl)
    case Pixels => PixelsLeft(c, s.ctl, s.ser)
    case Drain => if s.ser.busy then s.ser.count else 0
    case Hold => 0
  }

  // --- One clock ----------------------------------------------------------------------------

  lemma CommandCounts(c: Cfg, p: Pre, w: Wave)
    requires Buildable(c) && PrefixAt(c, p, w) && (p.fsm == Command || p.fsm == CommandWait)
    ensures PrefixLeft(c, PreNext(c, p, false)) == PrefixLeft(c, p) - 1
  {
    assert Times(Slots(c.grammar), Columns(c) + 2) == Columns(c) + 2 + Times(Slots(c.grammar) - 1, Columns(c) + 2);
  }

  lemma BlockCounts(c: Cfg, p: Pre, w: Wave)
    requires Buildable(c) && PrefixAt(c, p, w) && (p.fsm == Block || (p.fsm == BlockWait && p.blk.busy))
    ensures PrefixLeft(c, PreNext(c, p, false)) == PrefixLeft(c, p) - 1
  {
  }

  lemma BlockEndCounts(c: Cfg, p: Pre, w: Wave)
    requires Buildable(c) && PrefixAt(c, p, w) && p.fsm == BlockWait && !p.blk.busy
    ensures PrefixLeft(c, PreNext(c, p, false)) == PrefixLeft(c, p) - 1
  {
    var left := Slots(c.grammar) - 1 - p.slot;
    assert left > 0 ==> Times(left, Columns(c) + 2) == Columns(c) + 2 + Times(left - 1, Columns(c) + 2);
  }

  lemma PrefixCounts(c: Cfg, p: Pre, w: Wave)
    requires Buildable(c) && PrefixAt(c, p, w) && p.fsm != PreIdle
    ensures PrefixLeft(c, PreNext(c, p, false)) == PrefixLeft(c, p) - 1
  {
    if p.fsm == Command || p.fsm == CommandWait { CommandCounts(c, p, w); }
    else if p.fsm == BlockWait && !p.blk.busy { BlockEndCounts(c, p, w); }
    else { BlockCounts(c, p, w); }
  }

  lemma WordsCount(c: Cfg, s: Ctl)
    requires Buildable(c) && s.fsm == Pixels && Counters(c, s)
    ensures var s' := PixelNext(c, s);
            if s'.fsm == Drain then WordsLeft(c, s) == 1 else s'.fsm == Pixels && WordsLeft(c, s') == WordsLeft(c, s) - 1
  {
    TimesIs(15, c.sections);
  }

  lemma AllWords(c: Cfg, s: Ctl)
    requires Buildable(c) && Home(s)
    ensures WordsLeft(c, s) == Times(c.rows, Columns(c))
  {
    TimesIs(15, c.sections);
  }

  lemma PrefixClock(c: Cfg, s: Regs, i: In, w: Wave)
    requires Buildable(c) && FrameAt(c, s, w) && (s.ctl.fsm == Prefix || s.ctl.fsm == PrefixWait)
    ensures Left(c, Next(c, s, i)) == Left(c, s) - 1
  {
    if s.ctl.fsm == PrefixWait && s.pre.fsm != PreIdle { PrefixCounts(c, s.pre, w); }
  }

  lemma PhaseClock(c: Cfg, s: Regs, i: In, w: Wave)
    requires Buildable(c) && FrameAt(c, s, w) && s.ctl.fsm == Phase
    ensures Left(c, Next(c, s, i)) == Left(c, s) - 1
  {
    AllWords(c, s.ctl);
  }

  lemma PixelsClock(c: Cfg, s: Regs, i: In, w: Wave)
    requires Buildable(c) && FrameAt(c, s, w) && (s.ctl.fsm == Pixels || (s.ctl.fsm == Drain && s.ser.busy))
    ensures Left(c, Next(c, s, i)) == Left(c, s) - 1
  {
    if s.ctl.fsm == Pixels && Loads(s.ser, true) { WordsCount(c, s.ctl); }
  }

  lemma ClockCounts(c: Cfg, s: Regs, i: In, w: Wave)
    requires Buildable(c) && FrameAt(c, s, w) && s.ctl.fsm != Idle && s.ctl.fsm != Hold && !FrameDone(s)
    ensures Left(c, Next(c, s, i)) == Left(c, s) - 1
    ensures Next(c, s, i).ctl.fsm != Idle && Next(c, s, i).ctl.fsm != Hold
  {
    if s.ctl.fsm == Phase { PhaseClock(c, s, i, w); }
    else if s.ctl.fsm == Pixels || s.ctl.fsm == Drain { PixelsClock(c, s, i, w); }
    else { PrefixClock(c, s, i, w); }
  }

  lemma {:induction false} CountsDown(c: Cfg, run: seq<Regs>, waves: seq<Wave>, ins: seq<In>, t: nat, n: nat)
    requires Buildable(c) && IsRun(c, run, waves, ins) && t + n < |run|
    requires run[t].ctl.fsm == Prefix && n <= FrameTicks(c)
    ensures Left(c, run[t + n]) == FrameTicks(c) - n && run[t + n].ctl.fsm != Idle && run[t + n].ctl.fsm != Hold
    decreases n
  {
    RunAt(c, run, waves, ins, t + n);
    if n > 0 {
      CountsDown(c, run, waves, ins, t, n - 1);
      RunAt(c, run, waves, ins, t + n - 1);
      assert TickAt(c, run, waves, ins, t + n - 1);
      ClockCounts(c, run[t + n - 1], ins[t + n - 1], waves[t + n - 1]);
    }
  }

  lemma {:induction false} TimesPositive(n: int, k: int)
    requires 0 <= k
    ensures Times(n, k) >= 0
    decreases n
  {
    if n > 0 { TimesPositive(n - 1, k); }
  }

  lemma PartsArePositive(c: Cfg, step: int, slot: int)
    requires Buildable(c) && 0 <= c.grammar.phase
    ensures AfterPrefix(c) > 0 && AfterBlock(c, slot) > 0 && AfterCommand(c, step) > 0
  {
    TimesPositive(c.rows, Columns(c));
    TimesPositive(Slots(c.grammar), Columns(c) + 2);
    TimesPositive(Slots(c.grammar) - 1 - slot, Columns(c) + 2);
  }

  lemma PrefixIsPositive(c: Cfg, p: Pre, w: Wave)
    requires Buildable(c) && PrefixAt(c, p, w)
    ensures PrefixLeft(c, p) > 0
  {
    PartsArePositive(c, p.step, p.slot);
  }

  lemma WordsArePositive(c: Cfg, s: Ctl)
    requires Buildable(c) && Counters(c, s)
    ensures WordsLeft(c, s) > 0
  {
    TimesPositive(c.rows - 1 - s.row, Columns(c));
    TimesPositive(15 - s.chan, c.sections);
  }

  lemma OnlyDoneIsZero(c: Cfg, s: Regs, w: Wave)
    requires Buildable(c) && FrameAt(c, s, w) && s.ctl.fsm != Idle && s.ctl.fsm != Hold
    ensures Left(c, s) == 0 <==> FrameDone(s)
  {
    TimesPositive(c.rows, Columns(c));
    if s.ctl.fsm == Prefix {
      TimesPositive(Slots(c.grammar), Columns(c) + 2);
    } else if s.ctl.fsm == PrefixWait {
      PrefixIsPositive(c, s.pre, w);
    } else if s.ctl.fsm == Pixels {
      WordsArePositive(c, s.ctl);
    }
  }

  /** EVERY FRAME ENDS, exactly FrameTicks clocks after it began and not before. */
  lemma FrameTakesExactly(c: Cfg, run: seq<Regs>, waves: seq<Wave>, ins: seq<In>, t: nat, n: nat)
    requires Buildable(c) && IsRun(c, run, waves, ins) && t + n < |run|
    requires run[t].ctl.fsm == Prefix && n <= FrameTicks(c)
    ensures FrameDone(run[t + n]) <==> n == FrameTicks(c)
  {
    CountsDown(c, run, waves, ins, t, n);
    RunAt(c, run, waves, ins, t + n);
    OnlyDoneIsZero(c, run[t + n], waves[t + n]);
  }

  /** How a frame's length is made up, for any grammar. */
  lemma FrameTicksIs(c: Cfg)
    requires Buildable(c)
    ensures FrameTicks(c) ==
            (if c.grammar.mid then V_SYNC + PRE_ACT_MID + PRE_ACT_END + 3 * (CLK_PAD + 2) else V_SYNC + PRE_ACT_END + 2 * (CLK_PAD + 2))
            + Slots(c.grammar) * (Columns(c) + 2) + 4 + 16 * c.grammar.phase + 16 * (c.rows * Columns(c))
  {
    TimesIs(c.rows, Columns(c));
    TimesIs(Slots(c.grammar), Columns(c) + 2);
  }

  /** THE PREDICTOR IS EXACT, to the clock, for the grammar it was written for: the middle burst, five
      slots and no phase latches. */
  lemma PredictorIsExact(c: Cfg)
    requires Buildable(c) && c.grammar.mid && c.grammar.slots == 5 && c.grammar.phase == 0
    ensures FrameTicks(c) == FrameClocks(Columns(c), c.rows)
  {
    FrameTicksIs(c);
    assert Columns(c) * c.rows * 16 == 16 * (c.rows * Columns(c));
  }
}
