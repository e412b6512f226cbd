/** The output stage behind its clock divider is the serialiser the line buffer was promised: it goes from row
    to row, gives every row its time, and looks ahead only at the end of a row. */
module Pacing {
  import opened Spwm
  import opened Waveform
  import opened FrameTime
  import opened FetchOrder
  import LB = LineBuffer
  import TS = ThreeSlots
  import Deadline

  // --- The divider --------------------------------------------------------------------------

  /** The stage, its divider counter, and the receiver on LAT. */
  datatype Card = Card(div: int, stage: Regs, wave: Wave)

  /** The stage moves in the cycles in which the counter is zero. */
  predicate Ticks(x: Card) { x.div == 0 }

  function DivNext(d: int, div: int): int { if div >= d - 1 then 0 else div + 1 }

  function CardNext(c: Cfg, d: int, x: Card, i: In): Card {
    if Ticks(x) then Card(DivNext(d, x.div), Next(c, x.stage, i), WaveNext(c, x.stage, i.start, x.wave))
    else x.(div := DivNext(d, x.div))
  }

  function CardReset(c: Cfg): Card
    requires 1 <= c.lines
  {
    Card(0, Reset(c), Fresh)
  }

  predicate CardAt(c: Cfg, d: int, cards: seq<Card>, pins: seq<In>, t: nat)
    requires t < |pins| && |cards| == |pins| + 1
  {
    cards[t + 1] == CardNext(c, d, cards[t], pins[t])
  }

  /** From reset, with a divider of at least two: a lower setting is clamped. */
  predicate IsCardRun(c: Cfg, d: int, cards: seq<Card>, pins: seq<In>) {
    && Buildable(c) && OrderOk(c.order) && 2 <= c.rows && 2 <= d && |cards| == |pins| + 1
    && cards[0] == CardReset(c)
    && forall t | 0 <= t < |pins| :: CardAt(c, d, cards, pins, t)
  }

  // --- A row's age, in ticks ----------------------------------------------------------------

  function Words(c: Cfg, s: Ctl): int { Times(s.chan, c.sections) + s.sect }

  /** At least so many ticks have gone by since the row was entered. */
  function Age(c: Cfg, s: Regs): int {
    match s.ctl.fsm
    case Idle => 0
    case Prefix => 0
    case PrefixWait => PrefixAge(c, s.pre)
    case Phase => 15
    case Pixels => if s.ser.busy then 16 * Words(c, s.ctl) + 16 - s.ser.count else 15
    case Drain => 16 * Columns(c)
    case Hold => 16 * Columns(c)
  }

  function PrefixAge(c: Cfg, p: Pre): int {
    match p.fsm
    case PreIdle => 15
    case Command => 0
    case CommandWait => 0
    case Block => if p.slot > 0 then 15 else 0
    case BlockWait => if p.slot > 0 || !p.blk.busy || Columns(c) - p.blk.left > 15 then 15 else Columns(c) - p.blk.left
  }

  /** The counters between frames: at home before the first one, on the last row after one. */
  predicate Between(c: Cfg, s: Ctl) {
    && (s.fsm == Idle ==> Home(s))
    && (s.fsm == Drain || s.fsm == Hold ==> s.sect == 0 && s.chan == 0 && s.row == c.rows - 1)
  }

  predicate StageOk(c: Cfg, s: Regs, w: Wave) {
    FrameAt(c, s, w) && Between(c, s.ctl) && Counters(c, s.ctl)
  }

  lemma StageStep(c: Cfg, s: Regs, i: In, w: Wave)
    requires Buildable(c) && StageOk(c, s, w)
    ensures StageOk(c, Next(c, s, i), WaveNext(c, s, i.start, w))
  {
    FrameStep(c, s, i, w);
  }

  lemma PrefixAges(c: Cfg, p: Pre, w: Wave)
    requires Buildable(c) && PrefixAt(c, p, w) && p.fsm != PreIdle
    ensures PrefixAge(c, PreNext(c, p, false)) <= PrefixAge(c, p) + 1
  {
  }

  lemma WordsGrow(c: Cfg, s: Ctl)
    requires Buildable(c) && s.fsm == Pixels && Counters(c, s)
    ensures var s' := PixelNext(c, s);
            if s'.row == s.row && s'.fsm == Pixels then Words(c, s') == Words(c, s) + 1
            else Words(c, s) == 16 * c.sections - 1 && (s'.fsm == Pixels ==> Words(c, s') == 0 && s'.row == s.row + 1)
  {
    TimesIs(15, c.sections);
    assert Times(s.chan + 1, c.sections) == Times(s.chan, c.sections) + c.sections;
  }

  /** A tick within a row makes it at most a tick older; a row is left at the end of its time. */
  predicate Ages(c: Cfg, s: Regs, s': Regs) {
    if s'.ctl.row == s.ctl.row then Age(c, s') <= Age(c, s) + 1
    else
      && Age(c, s) + 1 >= 16 * Columns(c) && Age(c, s') == 0
      && s'.ctl.row == (if s.ctl.row == c.rows - 1 then 0 else s.ctl.row + 1)
  }

  lemma PixelsAge(c: Cfg, s: Regs, i: In, w: Wave)
    requires Buildable(c) && StageOk(c, s, w) && s.ctl.fsm == Pixels
    ensures Ages(c, s, Next(c, s, i))
  {
    if Loads(s.ser, true) { WordsGrow(c, s.ctl); }
  }

  lemma RestAges(c: Cfg, s: Regs, i: In, w: Wave)
    requires Buildable(c) && StageOk(c, s, w) && s.ctl.fsm != Pixels
    ensures Ages(c, s, Next(c, s, i))
  {
    if s.ctl.fsm == PrefixWait && s.pre.fsm != PreIdle { PrefixAges(c, s.pre, w); }
  }

  lemma TickAges(c: Cfg, s: Regs, i: In, w: Wave)
    requires Buildable(c) && StageOk(c, s, w)
    ensures Ages(c, s, Next(c, s, i))
  {
    if s.ctl.fsm == Pixels { PixelsAge(c, s, i, w); } else { RestAges(c, s, i, w); }
  }

  // --- In cycles ----------------------------------------------------------------------------

  /** What the line buffer sees of the stage. */
  predicate Sees(c: Cfg, x: Card, i: LB.In) {
    && i.base == x.stage.ctl.row && i.row == RowA(c, x.stage.ctl.row, x.stage.ctl.chan)
    && i.col == Column(c.order, x.stage.ctl.chan, x.stage.ctl.sect)
  }

  predicate SeesAll(c: Cfg, cards: seq<Card>, ins: seq<LB.In>) {
    |cards| == |ins| + 1 && forall t | 0 <= t < |ins| :: Sees(c, cards[t], ins[t])
  }

  /** Cycles since the last tick could last be seen. */
  function DivLag(d: int, div: int): int { if div == 0 then d - 1 else div - 1 }

  /** In cycle t the row is as old as the ticks say. */
  predicate OldEnough(c: Cfg, d: int, x: Card, since: int) {
    x.stage.ctl.fsm != Idle ==> since >= d * Age(c, x.stage) + DivLag(d, x.div)
  }

  lemma TickTakesTime(d: int, age: int, age': int, since: int)
    requires 2 <= d && age' <= age + 1 && since >= d * age + d - 1
    ensures since + 1 >= d * age'
  {
    assert d * (age + 1) == d * age + d;
    assert d * age' <= d * (age + 1);
  }

  /** One cycle: the row stays and grows older, or is left no sooner than its time. */
  lemma CycleAges(c: Cfg, d: int, x: Card, i: In, since: int)
    requires Buildable(c) && 2 <= d && StageOk(c, x.stage, x.wave) && 0 <= x.div < d && 0 <= since
    requires OldEnough(c, d, x, since)
    ensures var x' := CardNext(c, d, x, i);
            && StageOk(c, x'.stage, x'.wave) && 0 <= x'.div < d
            && (if x'.stage.ctl.row == x.stage.ctl.row then OldEnough(c, d, x', since + 1)
                else since + 1 >= d * (16 * Columns(c)) && OldEnough(c, d, x', 0)
                     && x'.stage.ctl.row == (if x.stage.ctl.row == c.rows - 1 then 0 else x.stage.ctl.row + 1))
  {
    if Ticks(x) {
      StageStep(c, x.stage, i, x.wave);
      TickAges(c, x.stage, i, x.wave);
      var s' := Next(c, x.stage, i);
      if x.stage.ctl.fsm != Idle {
        TickTakesTime(d, Age(c, x.stage), if s'.ctl.row == x.stage.ctl.row then Age(c, s') else 16 * Columns(c), since);
      }
    }
  }

  /** A row's time in system cycles. */
  function Period(c: Cfg, d: int): int { d * (16 * Columns(c)) }

  predicate RowRun(c: Cfg, d: int, cards: seq<Card>, pins: seq<In>, ins: seq<LB.In>) {
    IsCardRun(c, d, cards, pins) && |ins| == |pins| && SeesAll(c, cards, ins)
  }

  predicate OnCourse(c: Cfg, d: int, x: Card, since: int) {
    StageOk(c, x.stage, x.wave) && 0 <= x.div < d && OldEnough(c, d, x, since)
  }

  lemma MovedIsRow(c: Cfg, d: int, cards: seq<Card>, pins: seq<In>, ins: seq<LB.In>, t: nat)
    requires RowRun(c, d, cards, pins, ins) && 0 < t < |ins|
    ensures TS.Moved(ins, t) <==> cards[t].stage.ctl.row != cards[t - 1].stage.ctl.row
    ensures cards[t] == CardNext(c, d, cards[t - 1], pins[t - 1])
  {
    assert Sees(c, cards[t], ins[t]) && Sees(c, cards[t - 1], ins[t - 1]);
    assert CardAt(c, d, cards, pins, t - 1);
  }

  lemma {:induction false} CourseAt(c: Cfg, d: int, cards: seq<Card>, pins: seq<In>, ins: seq<LB.In>, t: nat)
    requires RowRun(c, d, cards, pins, ins) && t < |ins|
    ensures OnCourse(c, d, cards[t], Deadline.Since(ins, t))
  {
    if t > 0 {
      CourseAt(c, d, cards, pins, ins, t - 1);
      MovedIsRow(c, d, cards, pins, ins, t);
      CycleAges(c, d, cards[t - 1], pins[t - 1], Deadline.Since(ins, t - 1));
    }
  }

  /** The row read is the row or the one after it. */
  lemma ReadsOneAhead(c: Cfg, s: Ctl)
    requires 2 <= c.rows && OrderOk(c.order) && Counters(c, s)
    ensures var lc := LB.Cfg(Columns(c), c.rows, 1);
            RowA(c, s.row, s.chan) == s.row || RowA(c, s.row, s.chan) == LB.NextRow(lc, s.row)
    ensures RowA(c, s.row, s.chan) != s.row ==> s.chan >= 16 - c.order.adv
  {
  }

  /** A row that is left is left for the next one. */
  lemma StageMoves(c: Cfg, d: int, cards: seq<Card>, pins: seq<In>, ins: seq<LB.In>, t: nat)
    requires RowRun(c, d, cards, pins, ins) && 0 < t < |ins| && TS.Moved(ins, t)
    ensures ins[t].base == LB.NextRow(LB.Cfg(Columns(c), c.rows, 1), ins[t - 1].base)
  {
    CourseAt(c, d, cards, pins, ins, t - 1);
    MovedIsRow(c, d, cards, pins, ins, t);
    CycleAges(c, d, cards[t - 1], pins[t - 1], Deadline.Since(ins, t - 1));
    assert Sees(c, cards[t], ins[t]) && Sees(c, cards[t - 1], ins[t - 1]);
  }

  /** THE SERIALISER FOLLOWS ITS ROWS: in every run of the stage the row counter stays or goes to the next
      row, wrapping after the last, and the row read is that one or the one after. */
  lemma StageFollows(c: Cfg, d: int, cards: seq<Card>, pins: seq<In>, ins: seq<LB.In>, lc: LB.Cfg, t: nat)
    requires RowRun(c, d, cards, pins, ins) && t < |ins| && lc.rows == c.rows
    ensures TS.Follows(lc, ins, t)
  {
    assert Sees(c, cards[t], ins[t]);
    CourseAt(c, d, cards, pins, ins, t);
    ReadsOneAhead(c, cards[t].stage.ctl);
    if t > 0 && TS.Moved(ins, t) { StageMoves(c, d, cards, pins, ins, t); }
  }

  lemma Regroup(d: int, s: int, n: int)
    ensures d * (16 * (n * s)) == (d * (16 * s)) * n
  {
    assert 16 * (n * s) == (16 * s) * n;
  }

  lemma AtLeast(k: int, n: int, m: int)
    requires 0 <= k && m <= n
    ensures k * n >= k * m
  {
  }

  lemma LateEnough(k: int, chan: int, ahead: int, since: int)
    requires 0 <= k && ahead <= chan && since >= k * chan
    ensures 16 * since >= (16 * k) * ahead
  {
    AtLeast(k, chan, ahead);
    assert (16 * k) * ahead == 16 * (k * ahead);
  }

  /** By the time channel `chan` is reached, so many sweeps have gone by. */
  lemma SweepsTake(c: Cfg, d: int, s: Regs)
    requires Buildable(c) && 2 <= d && s.ctl.fsm == Pixels && s.ser.busy && s.ser.count <= 16
    requires 0 <= s.ctl.chan && 0 <= s.ctl.sect
    ensures d * Age(c, s) >= (d * (16 * c.sections)) * s.ctl.chan
  {
    TimesIs(s.ctl.chan, c.sections);
    Regroup(d, c.sections, s.ctl.chan);
    AtLeast(d, Age(c, s), 16 * (s.ctl.chan * c.sections));
  }

  lemma PeriodIs(c: Cfg, d: int)
    ensures Period(c, d) == 16 * (d * (16 * c.sections))
  {
    assert d * (16 * (16 * c.sections)) == 16 * (d * (16 * c.sections));
  }

  lemma AheadIsLate(c: Cfg, d: int, x: Card, since: int)
    requires Buildable(c) && 2 <= d && OrderOk(c.order) && OnCourse(c, d, x, since)
    requires 16 - c.order.adv <= x.stage.ctl.chan
    ensures 16 * since >= Period(c, d) * (16 - c.order.adv)
  {
    var s := x.stage;
    assert s.ctl.fsm == Pixels && s.ser.busy;
    SweepsTake(c, d, s);
    AtLeast(d, 16 * c.sections, 0);
    PeriodIs(c, d);
    LateEnough(d * (16 * c.sections), s.ctl.chan, 16 - c.order.adv, since);
  }

  /** THE SERIALISER KEEPS ITS PACE: a row lasts at least columns * 16 ticks of the divided clock, and the next
      row is read only in its last sweep_adv sixteenths. */
  lemma StageIsPaced(c: Cfg, d: int, cards: seq<Card>, pins: seq<In>, ins: seq<LB.In>, t: nat)
    requires RowRun(c, d, cards, pins, ins) && t < |ins|
    ensures Deadline.PacedAt(ins, Period(c, d), c.order.adv, t)
  {
    assert Sees(c, cards[t], ins[t]);
    CourseAt(c, d, cards, pins, ins, t);
    ReadsOneAhead(c, cards[t].stage.ctl);
    if ins[t].row != ins[t].base {
      AheadIsLate(c, d, cards[t], Deadline.Since(ins, t));
    }
    if t > 0 {
      CourseAt(c, d, cards, pins, ins, t - 1);
      MovedIsRow(c, d, cards, pins, ins, t);
      CycleAges(c, d, cards[t - 1], pins[t - 1], Deadline.Since(ins, t - 1));
    }
  }
}
