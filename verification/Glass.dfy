/** From memory to glass: the line buffer's data fed to the serialiser, and the picture in the drivers. */
module Glass {
  import PS = PixelSource
  import TS = ThreeSlots
  import SP = Spwm
  import Pacing
  import TickRun
  import ShiftChain
  import Drivers
  import FetchOrder
  import FrameReads
  import TakenWords
  import opened FetchPath
  import opened ScanOut
  import opened Freshness

  /** The colour a data line takes from a converted word: a fixed permutation of its three parts. */
  type Lane = (int, int) -> int

  /** Three data lines per group: the pixel inputs of the stage are parts of the data the line buffer has
      registered. */
  predicate FedAt(p: Path, k: nat, lane: Lane, i: SP.In) {
    && |i.pix| == 12
    && (k < |p.units| && |p.units[k].lb.q.rdData| == 4 ==>
          forall n | 0 <= n < 12 :: i.pix[n] == lane(p.units[k].lb.q.rdData[n / 3], n % 3))
  }

  predicate Fed(run: seq<Path>, k: nat, lane: Lane, pins: seq<SP.In>) {
    |run| > |pins| && forall t | 0 <= t < |pins| :: FedAt(run[t], k, lane, pins[t])
  }

  /** The value line n has for a picture's row and column. */
  function LineValue(out: PS.Cfg, lane: Lane, pic: Picture, row: int, col: int, n: int): int {
    lane(out.conv(pic(row, col, n / 3)), n % 3)
  }

  /** Output k of a path run, the stage that reads it, and the way the data lines are fed. */
  datatype Side = Side(b: Build, run: seq<Path>, envs: seq<Env>, k: nat, c: SP.Cfg, d: int, cards: seq<Pacing.Card>,
                       pins: seq<SP.In>, fill: nat, lane: Lane)

  /** The stage reads output k, fills are fast enough, and the registered data is fed on. */
  ghost predicate Panel(x: Side) {
    match x
    case Side(b, run, envs, k, c, d, cards, pins, fill, lane) =>
      && Linked(b, run, envs, k, c, d, cards, pins) && FastEnough(run, k, c, d, fill)
      && c.lines == 12 && Fed(run, k, lane, pins) && |b.outputs[k].offsets| == 4
  }

  /** A base, the picture found there, and the cycle since when. */
  datatype Shown = Shown(base: int, pic: Picture, from: nat)

  /** The row read in cycle t is the fourth or a later one, and at least three rows past that of cycle `from`. */
  predicate ThreeRowsOn(x: Side, from: nat, t: nat) {
    match x
    case Side(b, run, envs, k, c, d, cards, pins, fill, lane) =>
      && |run| == |envs| + 1 && from <= t < |envs|
      && var rows, row := TS.Rows(Views(b, run, envs, k), from), TS.Reading(Views(b, run, envs, k), t);
         row >= 4 && rows + 3 <= row
  }

  /** Every read from cycle t0 to cycle t1 is so far on. */
  predicate Settled(x: Side, from: nat, t0: nat, t1: nat) { forall t: nat | t0 <= t < t1 :: ThreeRowsOn(x, from, t) }

  /** The picture has been still long enough for all that is read from cycle t0 to cycle t1. */
  ghost predicate StillFor(x: Side, s: Shown, t0: nat, t1: nat) {
    match x
    case Side(b, run, envs, k, c, d, cards, pins, fill, lane) =>
      && k < |b.outputs| && |b.outputs[k].offsets| == 4 && s.from <= t0 <= t1 < |envs|
      && Still(b.outputs[k], envs, k, s.base, s.pic, s.from, t1)
      && Settled(x, s.from, t0, t1)
  }

  /** Three rows on in one cycle is three rows on ever after. */
  lemma RowsSettle(x: Side, from: nat, t0: nat, t1: nat)
    requires |x.run| == |x.envs| + 1 && from <= t0 <= t1 < |x.envs|
    requires TS.Rows(Views(x.b, x.run, x.envs, x.k), t0 + 1) >= 4
    requires TS.Rows(Views(x.b, x.run, x.envs, x.k), from) + 3 <= TS.Rows(Views(x.b, x.run, x.envs, x.k), t0 + 1)
    ensures Settled(x, from, t0, t1)
  {
    forall t: nat | t0 <= t < t1
      ensures ThreeRowsOn(x, from, t)
    {
      TS.RowsMonotone(Views(x.b, x.run, x.envs, x.k), t0 + 1, t + 1);
    }
  }

  /** In the cycle before a tick the stage was where it is. */
  lemma SameBefore(c: SP.Cfg, d: int, cards: seq<Pacing.Card>, pins: seq<SP.In>, t: nat)
    requires Pacing.IsCardRun(c, d, cards, pins) && 0 < t < |cards| && Pacing.Ticks(cards[t])
    ensures cards[t].stage == cards[t - 1].stage
  {
    assert Pacing.CardAt(c, d, cards, pins, t - 1);
    DivAt(c, d, cards, pins, t - 1);
  }

  lemma {:induction false} DivAt(c: SP.Cfg, d: int, cards: seq<Pacing.Card>, pins: seq<SP.In>, t: nat)
    requires Pacing.IsCardRun(c, d, cards, pins) && t < |cards|
    ensures 0 <= cards[t].div < d
  {
    if t > 0 {
      DivAt(c, d, cards, pins, t - 1);
      assert Pacing.CardAt(c, d, cards, pins, t - 1);
    }
  }

  /** What the buffer has registered after a cycle is the picture's. */
  predicate Registered(p: Path, k: nat, c: SP.Cfg, out: PS.Cfg, pic: Picture, ctl: SP.Ctl, g: int) {
    && k < |p.units| && |p.units[k].lb.q.rdData| == 4 && 0 <= g < 4
    && p.units[k].lb.q.rdData[g] == out.conv(pic(SP.RowA(c, ctl.row, ctl.chan), SP.Column(c.order, ctl.chan, ctl.sect), g))
  }

  /** What is registered after cycle t is the picture's, at the place the stage was in it. */
  predicate ReadsPicture(x: Side, pic: Picture, t: nat, g: int) {
    match x
    case Side(b, run, envs, k, c, d, cards, pins, fill, lane) =>
      && k < |b.outputs| && t + 1 < |run| && t < |cards|
      && Registered(run[t + 1], k, c, b.outputs[k], pic, cards[t].stage.ctl, g)
  }

  lemma CycleReadsPicture(x: Side, s: Shown, t0: nat, t1: nat, t: nat, g: int)
    requires Panel(x) && StillFor(x, s, t0, t1) && t0 <= t < t1 && 0 <= g < 4
    ensures ReadsPicture(x, s.pic, t, g)
  {
    assert ThreeRowsOn(x, s.from, t);
    StillPictureIsRead(x.b, x.run, x.envs, x.k, x.c, x.d, x.cards, x.pins, x.fill, s.from, t, s.base, s.pic, g);
  }

  /** Cycle t is a tick: the stage has not moved since the cycle before, and takes what is registered. */
  predicate TakesIn(x: Side, t: nat) {
    match x
    case Side(b, run, envs, k, c, d, cards, pins, fill, lane) =>
      && 0 < t < |pins| && t < |run| && t < |cards| && FedAt(run[t], k, lane, pins[t]) && c.lines == 12
      && cards[t].stage == cards[t - 1].stage
  }

  lemma TickTakesIn(x: Side, t: nat)
    requires Panel(x) && 0 < t < |x.pins| && t < |x.cards| && Pacing.Ticks(x.cards[t])
    ensures TakesIn(x, t)
  {
    SameBefore(x.c, x.d, x.cards, x.pins, t);
  }

  // --- The frame ----------------------------------------------------------------------------

  /** The ticks of the side's cycles, as a run of its stage. */
  function States(x: Side): seq<SP.Regs>
    requires |x.pins| < |x.cards|
  {
    TickRun.States(x.cards, |x.pins|)
  }

  function Ins(x: Side): seq<SP.In>
    requires |x.pins| < |x.cards|
  {
    TickRun.TickIns(x.cards, x.pins, |x.pins|)
  }

  function TickAt(x: Side, t: nat): nat
    requires t <= |x.cards|
  {
    TickRun.Count(x.cards, t)
  }

  /** From a cycle in the stage's prefix to the cycle of a tick that ends a frame. */
  ghost predicate FrameOf(x: Side, t0: nat, t1: nat) {
    && t0 <= t1 < |x.pins| < |x.cards|
    && x.cards[t0].stage.ctl.fsm == SP.Prefix && Pacing.Ticks(x.cards[t1]) && SP.FrameDone(x.cards[t1].stage)
  }

  lemma SideCards(x: Side)
    requires Panel(x)
    ensures Pacing.IsCardRun(x.c, x.d, x.cards, x.pins) && x.k < |x.b.outputs| && x.c.lines == 12
    ensures |x.pins| == |x.envs| && |x.run| == |x.envs| + 1
  {
  }

  /** The cycle of tick j of the frame. */
  lemma CycleOfFrame(x: Side, t0: nat, t1: nat, j: nat) returns (t: nat)
    requires Pacing.IsCardRun(x.c, x.d, x.cards, x.pins) && FrameOf(x, t0, t1) && TickAt(x, t0) <= j < TickAt(x, t1)
    ensures t < t1 && Pacing.Ticks(x.cards[t]) && (t <= t0 ==> x.cards[t].stage.ctl.fsm == SP.Prefix)
    ensures j < |States(x)| && j < |Ins(x)| && States(x)[j] == x.cards[t].stage && Ins(x)[j] == x.pins[t]
  {
    TickRun.CountGrows(x.cards, t1, |x.pins|);
    t := TickRun.CycleOfTick(x.c, x.d, x.cards, x.pins, |x.pins|, j);
    if t >= t1 { TickRun.CountGrows(x.cards, t1, t); }
    if t <= t0 {
      TickRun.CountGrows(x.cards, t, t0);
      TickRun.StateAt(x.c, x.d, x.cards, x.pins, t0, |x.pins|);
    }
  }

  /** The bounds of the frame in ticks. */
  lemma FrameTickBounds(x: Side, t0: nat, t1: nat)
    requires Pacing.IsCardRun(x.c, x.d, x.cards, x.pins) && FrameOf(x, t0, t1)
    ensures TickAt(x, t0) <= TickAt(x, t1) < |Ins(x)| == |States(x)| - 1
    ensures States(x)[TickAt(x, t0)] == x.cards[t0].stage && States(x)[TickAt(x, t1)] == x.cards[t1].stage
  {
    TickRun.Lengths(x.c, x.d, x.cards, x.pins, |x.pins|);
    TickRun.CountGrows(x.cards, t0, t1);
    TickRun.CountGrows(x.cards, t1 + 1, |x.pins|);
    TickRun.StateAt(x.c, x.d, x.cards, x.pins, t0, |x.pins|);
    TickRun.StateAt(x.c, x.d, x.cards, x.pins, t1, |x.pins|);
  }

  /** The drivers on line n beside the side's stage, whose settings suit the chip. */
  ghost predicate Chips(x: Side, n: nat, chains: seq<ShiftChain.Chain>) {
    && |x.pins| < |x.cards| && n < x.c.lines && ShiftChain.Wired(x.c) && TakenWords.Straight(x.c)
    && Drivers.IsChainRun(x.c, n, States(x), chains, Ins(x))
  }

  /** In ticks, the frame is a span of the stage's own run. */
  ghost predicate SpanOf(x: Side, n: nat, chains: seq<ShiftChain.Chain>, from: nat, to: nat) {
    match x
    case Side(b, run, envs, k, c, d, cards, pins, fill, lane) =>
      && |pins| < |cards|
      && Drivers.Span(c, n, TickRun.States(cards, |pins|), TickRun.Waves(cards, |pins|), chains,
                      TickRun.TickIns(cards, pins, |pins|), from, to)
  }

  lemma FrameInTicks(x: Side, n: nat, chains: seq<ShiftChain.Chain>, t0: nat, t1: nat)
    requires Pacing.IsCardRun(x.c, x.d, x.cards, x.pins) && FrameOf(x, t0, t1) && Chips(x, n, chains)
    ensures SpanOf(x, n, chains, TickAt(x, t0), TickAt(x, t1))
  {
    TickRun.TicksAreARun(x.c, x.d, x.cards, x.pins, |x.pins|);
    FrameTickBounds(x, t0, t1);
  }

  /** Tick `to` leaves the word v at the place. */
  predicate Leaves(x: Side, chains: seq<ShiftChain.Chain>, to: nat, m: Drivers.Memory, p: TakenWords.Place, v: int) {
    to + 1 < |chains| && TakenWords.HoldsWord(x.c, m, chains[to + 1].latches, p, v)
  }

  lemma SpanLeaves(x: Side, n: nat, chains: seq<ShiftChain.Chain>, from: nat, to: nat, m: Drivers.Memory, p: TakenWords.Place)
      returns (j: nat)
    requires SpanOf(x, n, chains, from, to) && TakenWords.Straight(x.c) && TakenWords.OnGlass(x.c, m, p)
    ensures from <= j < to && j < |Ins(x)| && j < |States(x)| && n < |Ins(x)[j].pix|
    ensures TakenWords.TakesAt(x.c, States(x), TakenWords.PixAtPlace(p), j)
    ensures Leaves(x, chains, to, m, p, Ins(x)[j].pix[n])
  {
    j := TakenWords.GlassHoldsWhatIsTaken(x.c, n, States(x), TickRun.Waves(x.cards, |x.pins|), chains, Ins(x), from, to, m, p);
  }

  /** In cycle t the stage stands at the place's own row and column. */
  predicate StandsAt(x: Side, t: nat, p: TakenWords.Place) {
    t < |x.cards| && FrameReads.Presented(x.c, x.cards[t].stage.ctl) == TakenWords.PixAtPlace(p)
  }

  /** What line n makes of the data registered after cycle t. */
  predicate LineAfter(x: Side, t: nat, n: nat, v: int) {
    match x
    case Side(b, run, envs, k, c, d, cards, pins, fill, lane) =>
      && t + 1 < |run| && k < |run[t + 1].units|
      && (|run[t + 1].units[k].lb.q.rdData| == 4 && n < 12 ==> v == lane(run[t + 1].units[k].lb.q.rdData[n / 3], n % 3))
  }

  lemma WordOfTick(x: Side, t: nat, n: nat)
    requires TakesIn(x, t) && n < 12 && x.k < |x.run[t].units|
    ensures |x.pins[t].pix| == 12 && LineAfter(x, t - 1, n, x.pins[t].pix[n])
  {
    assert x.run[t - 1 + 1] == x.run[t];
  }

  lemma UnitsOf(x: Side, t: nat)
    requires Panel(x) && t < |x.run|
    ensures x.k < |x.run[t].units|
  {
    PathRunInv(x.b, x.run, x.envs, t);
  }

  /** The cycle in which the tick's word was read. */
  lemma TickReads(x: Side, n: nat, t0: nat, t: nat, p: TakenWords.Place)
    requires Panel(x) && n < 12 && t0 < t < |x.pins| && t < |x.cards| && Pacing.Ticks(x.cards[t]) && StandsAt(x, t, p)
    ensures n < |x.pins[t].pix| && StandsAt(x, t - 1, p) && LineAfter(x, t - 1, n, x.pins[t].pix[n])
  {
    TickTakesIn(x, t);
    UnitsOf(x, t);
    WordOfTick(x, t, n);
  }

  lemma FrameLeaves(x: Side, n: nat, chains: seq<ShiftChain.Chain>, t0: nat, t1: nat, m: Drivers.Memory, p: TakenWords.Place)
      returns (t: nat)
    requires Pacing.IsCardRun(x.c, x.d, x.cards, x.pins) && FrameOf(x, t0, t1) && Chips(x, n, chains) && TakenWords.OnGlass(x.c, m, p)
    ensures t0 < t < t1 && Pacing.Ticks(x.cards[t]) && StandsAt(x, t, p) && n < |x.pins[t].pix|
    ensures Leaves(x, chains, TickAt(x, t1), m, p, x.pins[t].pix[n])
  {
    FrameInTicks(x, n, chains, t0, t1);
    var j := SpanLeaves(x, n, chains, TickAt(x, t0), TickAt(x, t1), m, p);
    t := CycleOfFrame(x, t0, t1, j);
  }

  /** WHAT IS READ IS ON THE GLASS. When a frame is done, each position of each driver holds the line's part of
      the data that the line buffer registered in a cycle of that frame in which the stage stood at the
      position's own row and column. */
  lemma GlassHoldsWhatIsRead(x: Side, n: nat, chains: seq<ShiftChain.Chain>, t0: nat, t1: nat, m: Drivers.Memory, p: TakenWords.Place)
      returns (t: nat, v: int)
    requires Panel(x) && FrameOf(x, t0, t1) && Chips(x, n, chains) && TakenWords.OnGlass(x.c, m, p)
    ensures t0 <= t < t1 && StandsAt(x, t, p) && LineAfter(x, t, n, v) && Leaves(x, chains, TickAt(x, t1), m, p, v)
  {
    SideCards(x);
    var tick := FrameLeaves(x, n, chains, t0, t1, m, p);
    TickReads(x, n, t0, tick, p);
    t, v := tick - 1, x.pins[tick].pix[n];
  }

  /** After tick `to` the place holds the picture's word for its row, column and group. */
  predicate Holds(x: Side, pic: Picture, n: nat, chains: seq<ShiftChain.Chain>, to: nat, m: Drivers.Memory, p: TakenWords.Place) {
    var at := TakenWords.PixAtPlace(p);
    x.k < |x.b.outputs| && Leaves(x, chains, to, m, p, LineValue(x.b.outputs[x.k], x.lane, pic, at.row, at.col, n))
  }

  /** A word read from a picture is the picture's. */
  lemma LineOfPicture(x: Side, pic: Picture, t: nat, n: nat, v: int, p: TakenWords.Place)
    requires n < 12 && StandsAt(x, t, p) && LineAfter(x, t, n, v) && ReadsPicture(x, pic, t, n / 3)
    ensures var at := TakenWords.PixAtPlace(p);
            x.k < |x.b.outputs| && v == LineValue(x.b.outputs[x.k], x.lane, pic, at.row, at.col, n)
  {
  }

  /** THE PICTURE IN MEMORY IS THE PICTURE ON THE GLASS. When a frame is done that began at least three rows after
      the picture and the base came to rest, and the drivers' settings suit the chip, line n of every driver
      holds, at every position, the picture's own converted word for that row, column and group. */
  lemma GlassShowsMemory(x: Side, s: Shown, t0: nat, t1: nat, n: nat, chains: seq<ShiftChain.Chain>, m: Drivers.Memory, p: TakenWords.Place)
    requires Panel(x) && StillFor(x, s, t0, t1) && FrameOf(x, t0, t1) && Chips(x, n, chains) && TakenWords.OnGlass(x.c, m, p)
    ensures Holds(x, s.pic, n, chains, TickAt(x, t1), m, p)
  {
    SideCards(x);
    var t, v := GlassHoldsWhatIsRead(x, n, chains, t0, t1, m, p);
    CycleReadsPicture(x, s, t0, t1, t, n / 3);
    LineOfPicture(x, s.pic, t, n, v, p);
  }
}
