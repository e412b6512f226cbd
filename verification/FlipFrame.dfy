/** A frame of the panel during which the engine flips: which of the two frames each position of the drivers
    shows. */
module FlipFrame {
  import PS = PixelSource
  import LB = LineBuffer
  import SP = Spwm
  import FetchUnit
  import TS = ThreeSlots
  import FillOrder
  import Waveform
  import Pacing
  import FetchOrder
  import FrameReads
  import ShiftChain
  import Drivers
  import TakenWords
  import opened FetchPath
  import opened ScanOut
  import opened Freshness
  import opened Glass
  import opened EndToEnd
  import opened FlipCut

  // --- Reads on either side of the flip -----------------------------------------------------

  lemma ReadIsHeld(b: Build, run: seq<Path>, envs: seq<Env>, k: nat, c: SP.Cfg, d: int, cards: seq<Pacing.Card>,
                   pins: seq<SP.In>, fill: nat, t: nat)
    requires Linked(b, run, envs, k, c, d, cards, pins) && FastEnough(run, k, c, d, fill) && t < |envs|
    requires TS.Reading(Views(b, run, envs, k), t) >= 1
    ensures HeldIn(b, run, k, t, TS.Reading(Views(b, run, envs, k), t))
  {
    SlotOfReading(b, run, envs, k, c, d, cards, pins, fill, t);
  }

  lemma CutPastHeld(lc: LB.Cfg, q: LB.Regs, ins: seq<LB.In>, at: nat, t: nat)
    requires t < at <= |ins| && TS.Sized(q)
    requires TS.Reading(ins, t) >= TS.Rows(ins, at) ==> TS.Holds(lc, q, TS.Reading(ins, t))
    ensures TS.Reading(ins, t) < FillOrder.Cut(lc, q, TS.Rows(ins, at))
  {
    TS.RowsMonotone(ins, t + 1, at);
  }

  lemma WindowOfRead(ins: seq<LB.In>, at: nat, t: nat)
    requires t < at <= |ins| && TS.Reading(ins, t) >= TS.Rows(ins, at)
    ensures FillOrder.Window(ins, t, at, TS.Reading(ins, t))
  {
  }

  /** A row read before cycle `at` lies above its cut. */
  lemma ReadBeforeIsAbove(b: Build, run: seq<Path>, envs: seq<Env>, k: nat, c: SP.Cfg, d: int, cards: seq<Pacing.Card>,
                          pins: seq<SP.In>, fill: nat, at: nat, t: nat)
    requires Linked(b, run, envs, k, c, d, cards, pins) && FastEnough(run, k, c, d, fill) && t < at <= |envs|
    requires TS.Reading(Views(b, run, envs, k), t) >= 1
    ensures SlottedAt(run[at], k) && TS.Reading(Views(b, run, envs, k), t) < CutAt(b, run, envs, k, at)
  {
    var lc, ins := FetchUnit.BufferCfg(b.outputs[k]), Views(b, run, envs, k);
    SlottedInv(b, run, envs, k, at);
    if TS.Reading(ins, t) >= TS.Rows(ins, at) {
      ReadIsHeld(b, run, envs, k, c, d, cards, pins, fill, t);
      WindowOfRead(ins, at, t);
      HeldLater(b, run, envs, k, c, d, cards, pins, t, at, TS.Reading(ins, t));
    }
    CutPastHeld(lc, run[at].units[k].lb.q, ins, at, t);
  }

  lemma StillWithin(c: PS.Cfg, envs: seq<Env>, k: nat, s: Shown, to: int, to': int)
    requires |c.offsets| == 4 && Still(c, envs, k, s.base, s.pic, s.from, to) && to' <= to
    ensures Still(c, envs, k, s.base, s.pic, s.from, to')
  {
  }

  /** A picture still from s.from up to cycle `to`. */
  ghost predicate StillUpTo(x: Side, s: Shown, to: int) {
    match x
    case Side(b, run, envs, k, c, d, cards, pins, fill, lane) =>
      k < |b.outputs| && |b.outputs[k].offsets| == 4 && Still(b.outputs[k], envs, k, s.base, s.pic, s.from, to)
  }

  lemma AboveIsOld(x: Side, s: Shown, at: nat, t: nat, g: int)
    requires Panel(x) && ThreeRowsOn(x, s.from, t) && Above(x.b, x.run, x.envs, x.k, at, t) && 0 <= g < 4 && StillUpTo(x, s, at)
    ensures ReadsPicture(x, s.pic, t, g)
  {
    if at <= t {
      AboveReadsOld(x, s, at, t, g);
    } else {
      StillWithin(x.b.outputs[x.k], x.envs, x.k, s, at, t);
      StillPictureIsRead(x.b, x.run, x.envs, x.k, x.c, x.d, x.cards, x.pins, x.fill, s.from, t, s.base, s.pic, g);
    }
  }

  lemma BelowIsNew(x: Side, s: Shown, to: int, t: nat, g: int)
    requires Panel(x) && Below(x.b, x.run, x.envs, x.k, s.from, t) && 0 <= g < 4 && StillUpTo(x, s, to) && t <= to
    ensures ReadsPicture(x, s.pic, t, g)
  {
    if t < s.from {
      ReadBeforeIsAbove(x.b, x.run, x.envs, x.k, x.c, x.d, x.cards, x.pins, x.fill, s.from, t);
      assert false;
    } else {
      StillWithin(x.b.outputs[x.k], x.envs, x.k, s, to, t);
      BelowReadsNew(x, s, t, g);
    }
  }

  // --- Rows of one frame --------------------------------------------------------------------

  predicate Within(s: SP.Regs) { s.ctl.fsm != SP.Idle && s.ctl.fsm != SP.Hold }

  /** Cycle t is not a tick that ends a frame. */
  predicate GoesOn(cards: seq<Pacing.Card>, t: int) {
    0 <= t < |cards| && !(Pacing.Ticks(cards[t]) && SP.FrameDone(cards[t].stage))
  }

  /** One whole frame: no tick before t1 ends one. */
  ghost predicate OneFrame(x: Side, t0: nat, t1: nat) {
    FrameOf(x, t0, t1) && forall t | t0 <= t < t1 :: GoesOn(x.cards, t)
  }

  lemma RowGoesOn(c: SP.Cfg, d: int, x: Pacing.Card, i: SP.In)
    requires Within(x.stage) && !(Pacing.Ticks(x) && SP.FrameDone(x.stage))
    ensures var x' := Pacing.CardNext(c, d, x, i);
            Within(x'.stage) && (x'.stage.ctl.row == x.stage.ctl.row || x'.stage.ctl.row == x.stage.ctl.row + 1)
  {
  }

  /** The row of the panel the stage is in, counted from reset. */
  lemma {:induction false} RowsOfFrame(c: SP.Cfg, d: int, cards: seq<Pacing.Card>, pins: seq<SP.In>, ins: seq<LB.In>, t0: nat, t: nat)
    requires Pacing.RowRun(c, d, cards, pins, ins) && t0 <= t < |ins| && cards[t0].stage.ctl.fsm == SP.Prefix
    requires forall s | t0 <= s < t :: GoesOn(cards, s)
    ensures Within(cards[t].stage) && TS.Rows(ins, t + 1) == TS.Rows(ins, t0 + 1) + cards[t].stage.ctl.row
  {
    if t == t0 {
      Pacing.CourseAt(c, d, cards, pins, ins, t);
    } else {
      RowsOfFrame(c, d, cards, pins, ins, t0, t - 1);
      Pacing.MovedIsRow(c, d, cards, pins, ins, t);
      assert GoesOn(cards, t - 1);
      RowGoesOn(c, d, cards[t - 1], pins[t - 1]);
    }
  }

  /** How many rows after the frame's first a place is read: its own row, except for the very first position,
      which is read last. */
  function RowOfPlace(c: SP.Cfg, p: TakenWords.Place): int { if p.row == 0 && p.chan == 0 then c.rows else p.row }

  lemma PlaceIsRead(c: SP.Cfg, s: SP.Ctl, p: TakenWords.Place)
    requires 2 <= c.rows && TakenWords.Straight(c) && Waveform.Counters(c, s) && 0 <= p.chan < 16
    requires FrameReads.Presented(c, s) == TakenWords.PixAtPlace(p)
    ensures s.row + (if SP.RowA(c, s.row, s.chan) != s.row then 1 else 0) == RowOfPlace(c, p)
  {
    FetchOrder.StraightChannel(c.order, s.chan);
    FetchOrder.ColumnIndex(s.sect, SP.ChanEff(c.order, s.chan));
    FetchOrder.ColumnIndex(p.chip, p.chan);
  }

  lemma ReadingInFrame(c: SP.Cfg, d: int, cards: seq<Pacing.Card>, pins: seq<SP.In>, ins: seq<LB.In>, t0: nat, t: nat, p: TakenWords.Place)
    requires Pacing.RowRun(c, d, cards, pins, ins) && t0 <= t < |ins| && cards[t0].stage.ctl.fsm == SP.Prefix
    requires forall s | t0 <= s < t :: GoesOn(cards, s)
    requires TakenWords.Straight(c) && FrameReads.Presented(c, cards[t].stage.ctl) == TakenWords.PixAtPlace(p) && 0 <= p.chan < 16
    ensures TS.Reading(ins, t) == TS.Rows(ins, t0 + 1) + RowOfPlace(c, p)
  {
    RowsOfFrame(c, d, cards, pins, ins, t0, t);
    Pacing.CourseAt(c, d, cards, pins, ins, t);
    PlaceIsRead(c, cards[t].stage.ctl, p);
    assert Pacing.Sees(c, cards[t], ins[t]);
  }

  // --- The split ----------------------------------------------------------------------------

  /** In the frame begun at cycle t0 the place is read above the cut of cycle `at`. */
  predicate PlaceAbove(x: Side, at: nat, t0: nat, p: TakenWords.Place) {
    match x
    case Side(b, run, envs, k, c, d, cards, pins, fill, lane) =>
      && t0 < |envs| && at < |run| == |envs| + 1 && k < |b.outputs| && SlottedAt(run[at], k)
      && TS.Rows(Views(b, run, envs, k), t0 + 1) + RowOfPlace(c, p) < CutAt(b, run, envs, k, at)
  }

  /** ... or below it, or at it with nothing being fetched then. */
  predicate PlaceBelow(x: Side, at: nat, t0: nat, p: TakenWords.Place) {
    match x
    case Side(b, run, envs, k, c, d, cards, pins, fill, lane) =>
      && t0 < |envs| && at < |run| == |envs| + 1 && k < |b.outputs| && SlottedAt(run[at], k)
      && var row, cut := TS.Rows(Views(b, run, envs, k), t0 + 1) + RowOfPlace(c, p), CutAt(b, run, envs, k, at);
         cut <= row && (cut == row ==> !run[at].units[k].lb.q.filling)
  }

  lemma PlaceReading(x: Side, t0: nat, t1: nat, t: nat, p: TakenWords.Place)
    requires Panel(x) && OneFrame(x, t0, t1) && t0 <= t < t1 && StandsAt(x, t, p) && TakenWords.Straight(x.c) && 0 <= p.chan < 16
    ensures |x.run| == |x.envs| + 1 && t < |x.envs|
    ensures var ins := Views(x.b, x.run, x.envs, x.k); TS.Reading(ins, t) == TS.Rows(ins, t0 + 1) + RowOfPlace(x.c, p)
  {
    RowsOf(x.b, x.run, x.envs, x.k, x.c, x.d, x.cards, x.pins);
    ReadingInFrame(x.c, x.d, x.cards, x.pins, Views(x.b, x.run, x.envs, x.k), t0, t, p);
  }

  lemma PlaceIsOld(x: Side, s: Shown, at: nat, t0: nat, t1: nat, t: nat, p: TakenWords.Place, g: int)
    requires Panel(x) && OneFrame(x, t0, t1) && t0 <= t < t1 && StandsAt(x, t, p) && TakenWords.Straight(x.c) && 0 <= p.chan < 16
    requires PlaceAbove(x, at, t0, p) && ThreeRowsOn(x, s.from, t) && StillUpTo(x, s, at) && 0 <= g < 4
    ensures ReadsPicture(x, s.pic, t, g)
  {
    PlaceReading(x, t0, t1, t, p);
    AboveIsOld(x, s, at, t, g);
  }

  lemma PlaceIsNew(x: Side, s: Shown, since: nat, to: int, t0: nat, t1: nat, t: nat, p: TakenWords.Place, g: int)
    requires Panel(x) && OneFrame(x, t0, t1) && t0 <= t < t1 && StandsAt(x, t, p) && TakenWords.Straight(x.c) && 0 <= p.chan < 16
    requires PlaceBelow(x, s.from, t0, p) && ThreeRowsOn(x, since, t) && StillUpTo(x, s, to) && t <= to && 0 <= g < 4
    ensures ReadsPicture(x, s.pic, t, g)
  {
    PlaceReading(x, t0, t1, t, p);
    BelowIsNew(x, s, to, t, g);
  }

  /** One whole frame whose reads are all three rows past cycle `from`, drivers beside it, and a place in them. */
  ghost predicate Staged(x: Side, from: nat, t0: nat, t1: nat, n: nat, chains: seq<ShiftChain.Chain>,
                         m: Drivers.Memory, p: TakenWords.Place) {
    match p
    case Place(_, _, _) =>
      OneFrame(x, t0, t1) && Settled(x, from, t0, t1) && Chips(x, n, chains) && TakenWords.OnGlass(x.c, m, p)
  }

  /** The frame done in cycle t1 holds the one picture at a place above the cut where the other began, and the
      other at a place below it. */
  predicate Split(x: Side, was: Shown, now: Shown, t0: nat, t1: nat, n: nat, chains: seq<ShiftChain.Chain>,
                  m: Drivers.Memory, p: TakenWords.Place)
    requires t1 <= |x.cards|
  {
    && (PlaceAbove(x, now.from, t0, p) ==> Holds(x, was.pic, n, chains, TickAt(x, t1), m, p))
    && (PlaceBelow(x, now.from, t0, p) ==> Holds(x, now.pic, n, chains, TickAt(x, t1), m, p))
  }

  /** Between two pictures, one still up to cycle `at` and one since: a frame whose reads are three rows past the
      start of the first holds the first above the cut, and the second below it. */
  lemma SplitOnGlass(x: Side, was: Shown, now: Shown, to: int, t0: nat, t1: nat, n: nat, chains: seq<ShiftChain.Chain>,
                     m: Drivers.Memory, p: TakenWords.Place)
    requires Panel(x) && StillUpTo(x, was, now.from) && StillUpTo(x, now, to) && t1 <= to
    requires Staged(x, was.from, t0, t1, n, chains, m, p)
    ensures Split(x, was, now, t0, t1, n, chains, m, p)
  {
    SideCards(x);
    var t, v := GlassHoldsWhatIsRead(x, n, chains, t0, t1, m, p);
    assert ThreeRowsOn(x, was.from, t);
    if PlaceAbove(x, now.from, t0, p) {
      PlaceIsOld(x, was, now.from, t0, t1, t, p, n / 3);
      LineOfPicture(x, was.pic, t, n, v, p);
    }
    if PlaceBelow(x, now.from, t0, p) {
      PlaceIsNew(x, now, was.from, to, t0, t1, t, p, n / 3);
      LineOfPicture(x, now.pic, t, n, v, p);
    }
  }

  lemma ShownIsStill(z: Feed, x: Side, place: int, t: nat, u: int)
    requires FeedRun(z) && OnShow(z, t, u) && Joined(x, z, place, t)
    ensures t + 1 < |z.worlds| && StillUpTo(x, ShownBy(x, z, place, t), u + 1)
  {
    FrameIsStill(z, t, u, x.b.outputs[x.k], x.envs, x.k, place);
  }

  /** The engine flips to one frame in cycle t0, to the next in cycle t1, and not again before cycle u; `was` and
      `now` are the pictures the side has of them. */
  ghost predicate TwoFrames(z: Feed, x: Side, place: int, t0: int, t1: int, u: int, was: Shown, now: Shown) {
    match z
    case Feed(e, worlds, sched) =>
      && FeedRun(z) && OnShow(z, t0, t1) && OnShow(z, t1, u) && Joined(x, z, place, t0) && Joined(x, z, place, t1)
      && 0 <= t0 < t1 && t1 + 1 < |worlds|
      && was == ShownBy(x, z, place, t0) && now == ShownBy(x, z, place, t1)
  }

  lemma BothAreStill(z: Feed, x: Side, place: int, t0: nat, t1: nat, u: int, was: Shown, now: Shown)
    requires TwoFrames(z, x, place, t0, t1, u, was, now)
    ensures StillUpTo(x, was, now.from) && StillUpTo(x, now, u + 1)
  {
    ShownIsStill(z, x, place, t0, t1);
    ShownIsStill(z, x, place, t1, u);
  }

  /** A FLIP SPLITS THE PICTURE AT ONE ROW. Two frames on show one after the other, and a frame of the panel, done
      before a third flip, whose reads are all three rows past the first: every position above the cut of the
      second flip holds the first frame's converted pixel, and every position below it the second frame's; only
      the row being fetched at that moment, if any, can be of both (`OneRowIsMixed`). */
  lemma FlipSplitsThePicture(z: Feed, t0: nat, t1: nat, u: int, x: Side, place: int, f0: nat, f1: nat, n: nat,
                             chains: seq<ShiftChain.Chain>, m: Drivers.Memory, p: TakenWords.Place, was: Shown, now: Shown)
    requires TwoFrames(z, x, place, t0, t1, u, was, now)
    requires Panel(x) && Staged(x, was.from, f0, f1, n, chains, m, p) && f1 <= u + 1
    ensures Split(x, was, now, f0, f1, n, chains, m, p)
  {
    BothAreStill(z, x, place, t0, t1, u, was, now);
    SplitOnGlass(x, was, now, u + 1, f0, f1, n, chains, m, p);
  }

  /** There is no third kind of place but the row being fetched. */
  lemma OneRowIsMixed(x: Side, at: nat, t0: nat, p: TakenWords.Place, p': TakenWords.Place)
    requires Panel(x) && at < |x.run| && t0 < |x.envs|
    requires !PlaceAbove(x, at, t0, p) && !PlaceBelow(x, at, t0, p) && !PlaceAbove(x, at, t0, p') && !PlaceBelow(x, at, t0, p')
    ensures x.k < |x.run[at].units| && x.run[at].units[x.k].lb.q.filling && RowOfPlace(x.c, p) == RowOfPlace(x.c, p')
  {
    SlottedInv(x.b, x.run, x.envs, x.k, at);
  }

  /** In cycle t of the frame begun at f0 the stage is as many rows on as its row counter says. */
  predicate StageRow(x: Side, f0: nat, t: nat) {
    match x
    case Side(b, run, envs, k, c, d, cards, pins, fill, lane) =>
      && f0 <= t < |envs| && t < |cards| && |run| == |envs| + 1 && k < |b.outputs| && SlottedAt(run[t + 1], k)
      && TS.Rows(Views(b, run, envs, k), t + 1) == TS.Rows(Views(b, run, envs, k), f0 + 1) + cards[t].stage.ctl.row
  }

  lemma StageRows(x: Side, f0: nat, f1: nat, t: nat)
    requires Panel(x) && OneFrame(x, f0, f1) && f0 <= t < f1
    ensures |x.run| == |x.envs| + 1 && t < |x.envs| && t < |x.cards|
    ensures var ins := Views(x.b, x.run, x.envs, x.k); TS.Rows(ins, t + 1) == TS.Rows(ins, f0 + 1) + x.cards[t].stage.ctl.row
  {
    RowsOf(x.b, x.run, x.envs, x.k, x.c, x.d, x.cards, x.pins);
    RowsOfFrame(x.c, x.d, x.cards, x.pins, Views(x.b, x.run, x.envs, x.k), f0, t);
  }

  lemma SlottedLater(x: Side, t: nat)
    requires Panel(x) && t < |x.run|
    ensures x.k < |x.b.outputs| && SlottedAt(x.run[t], x.k)
  {
    SlottedInv(x.b, x.run, x.envs, x.k, t);
  }

  lemma StageIsInRow(x: Side, f0: nat, f1: nat, t: nat)
    requires Panel(x) && OneFrame(x, f0, f1) && f0 <= t < f1
    ensures StageRow(x, f0, t)
  {
    StageRows(x, f0, f1, t);
    SlottedLater(x, t + 1);
  }

  lemma CutNearStage(x: Side, f0: nat, t: nat, p: TakenWords.Place)
    requires StageRow(x, f0, t) && t < |x.cards|
    ensures RowOfPlace(x.c, p) <= x.cards[t].stage.ctl.row ==> PlaceAbove(x, t + 1, f0, p)
    ensures RowOfPlace(x.c, p) >= x.cards[t].stage.ctl.row + 4 ==> PlaceBelow(x, t + 1, f0, p)
  {
    CutIsNear(x.b, x.run, x.envs, x.k, t + 1);
  }

  /** THE CUT IS WHERE THE STAGE IS. If the flip comes in cycle t of the frame, with the stage in some row, then up
      to that row the places lie above the cut, and from four rows on below it. */
  lemma CutFollowsTheStage(x: Side, f0: nat, f1: nat, t: nat, p: TakenWords.Place)
    requires Panel(x) && OneFrame(x, f0, f1) && f0 <= t < f1 && t < |x.cards|
    ensures RowOfPlace(x.c, p) <= x.cards[t].stage.ctl.row ==> PlaceAbove(x, t + 1, f0, p)
    ensures RowOfPlace(x.c, p) >= x.cards[t].stage.ctl.row + 4 ==> PlaceBelow(x, t + 1, f0, p)
  {
    StageIsInRow(x, f0, f1, t);
    CutNearStage(x, f0, t, p);
  }
}
