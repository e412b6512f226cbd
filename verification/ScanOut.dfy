/** From memory to serialiser: the output stage reads every row after the first in time, and what it reads is
    what was fetched for that row and column. */
module ScanOut {
  import PS = PixelSource
  import LB = LineBuffer
  import SP = Spwm
  import FetchUnit
  import FetchInv
  import FetchStep
  import TS = ThreeSlots
  import Deadline
  import ThirdSlot
  import Pacing
  import opened Routing
  import opened FetchPath

  // --- One output of a run ------------------------------------------------------------------

  const NO_STATE: LB.State := LB.State(LB.Regs(0, 0, [], [], false, 0, 0, 0, 0, false, []), [])

  /** Output k's line buffer, and what it sees in a cycle. */
  function BufferOf(p: Path, k: nat): LB.State { if k < |p.units| then p.units[k].lb else NO_STATE }

  function SeenBy(b: Build, p: Path, e: Env, k: nat): LB.In {
    if Fits(b, p, e) && k < b.arb.n then FetchUnit.BufferIn(p.units[k], UnitIn(b, p, e, k)) else LB.In(0, 0, 0, false, false, [])
  }

  function Buffers(run: seq<Path>, k: nat): seq<LB.State> {
    seq(|run|, t requires 0 <= t < |run| => BufferOf(run[t], k))
  }

  function Views(b: Build, run: seq<Path>, envs: seq<Env>, k: nat): seq<LB.In>
    requires |run| == |envs| + 1
  {
    seq(|envs|, t requires 0 <= t < |envs| => SeenBy(b, run[t], envs[t], k))
  }

  /** The serialiser of output k is where its stage is. */
  predicate SpotAt(c: SP.Cfg, x: Pacing.Card, s: Spot) {
    var ctl := x.stage.ctl;
    s == Spot(ctl.row, SP.RowA(c, ctl.row, ctl.chan), SP.Column(c.order, ctl.chan, ctl.sect))
  }

  /** Output k of the path is read by a stage behind a divider. */
  ghost predicate Linked(b: Build, run: seq<Path>, envs: seq<Env>, k: nat, c: SP.Cfg, d: int,
                         cards: seq<Pacing.Card>, pins: seq<SP.In>) {
    && IsPathRun(b, run, envs) && k < b.arb.n && Pacing.IsCardRun(c, d, cards, pins) && |pins| == |envs|
    && b.outputs[k].rows == c.rows && b.outputs[k].columns == SP.Columns(c)
    && forall t | 0 <= t < |envs| :: LinkedAt(envs, k, c, cards, t)
  }

  predicate LinkedAt(envs: seq<Env>, k: nat, c: SP.Cfg, cards: seq<Pacing.Card>, t: int)
    requires 0 <= t < |envs| < |cards|
  {
    k < |envs[t].spots| && SpotAt(c, cards[t], envs[t].spots[k])
  }

  lemma ViewAt(b: Build, run: seq<Path>, envs: seq<Env>, k: nat, c: SP.Cfg, d: int, cards: seq<Pacing.Card>, pins: seq<SP.In>, t: nat)
    requires Linked(b, run, envs, k, c, d, cards, pins) && t < |envs|
    ensures Fits(b, run[t], envs[t]) && k < |run[t].units| && k < |run[t + 1].units|
    ensures Views(b, run, envs, k)[t] == FetchUnit.BufferIn(run[t].units[k], UnitIn(b, run[t], envs[t], k))
    ensures Pacing.Sees(c, cards[t], Views(b, run, envs, k)[t])
  {
    CycleOf(b, run, envs, t);
    assert LinkedAt(envs, k, c, cards, t);
  }

  lemma RowsOf(b: Build, run: seq<Path>, envs: seq<Env>, k: nat, c: SP.Cfg, d: int, cards: seq<Pacing.Card>, pins: seq<SP.In>)
    requires Linked(b, run, envs, k, c, d, cards, pins)
    ensures Pacing.RowRun(c, d, cards, pins, Views(b, run, envs, k))
  {
    var ins := Views(b, run, envs, k);
    forall t | 0 <= t < |ins|
      ensures Pacing.Sees(c, cards[t], ins[t])
    {
      ViewAt(b, run, envs, k, c, d, cards, pins, t);
    }
  }

  lemma BufferStep(b: Build, run: seq<Path>, envs: seq<Env>, k: nat, c: SP.Cfg, d: int, cards: seq<Pacing.Card>, pins: seq<SP.In>, t: nat)
    requires Linked(b, run, envs, k, c, d, cards, pins) && t < |envs|
    ensures var lc, states, ins := FetchUnit.BufferCfg(b.outputs[k]), Buffers(run, k), Views(b, run, envs, k);
            LB.Shaped(lc, states[t], ins[t]) && states[t + 1] == LB.Next(lc, states[t], ins[t])
  {
    ViewAt(b, run, envs, k, c, d, cards, pins, t);
    CycleOf(b, run, envs, t);
  }

  /** Output k's line buffer is a run of the three slots: its serialiser follows its rows. */
  lemma BufferRun(b: Build, run: seq<Path>, envs: seq<Env>, k: nat, c: SP.Cfg, d: int, cards: seq<Pacing.Card>, pins: seq<SP.In>)
    requires Linked(b, run, envs, k, c, d, cards, pins)
    ensures TS.IsRun(FetchUnit.BufferCfg(b.outputs[k]), Buffers(run, k), Views(b, run, envs, k))
  {
    var lc, states, ins := FetchUnit.BufferCfg(b.outputs[k]), Buffers(run, k), Views(b, run, envs, k);
    RowsOf(b, run, envs, k, c, d, cards, pins);
    assert states[0] == PathReset(b).units[k].lb;
    forall t | 0 <= t < |ins|
      ensures TS.CycleAt(lc, states, ins, t)
    {
      BufferStep(b, run, envs, k, c, d, cards, pins, t);
      Pacing.StageFollows(c, d, cards, pins, ins, lc, t);
    }
  }

  lemma PacedOutput(b: Build, run: seq<Path>, envs: seq<Env>, k: nat, c: SP.Cfg, d: int, cards: seq<Pacing.Card>, pins: seq<SP.In>)
    requires Linked(b, run, envs, k, c, d, cards, pins)
    ensures Pacing.Period(c, d) >= 0 && Deadline.Paced(Views(b, run, envs, k), Pacing.Period(c, d), c.order.adv)
  {
    var ins := Views(b, run, envs, k);
    RowsOf(b, run, envs, k, c, d, cards, pins);
    Pacing.AtLeast(d, 16 * SP.Columns(c), 0);
    forall t | 0 <= t < |ins|
      ensures Deadline.PacedAt(ins, Pacing.Period(c, d), c.order.adv, t)
    {
      Pacing.StageIsPaced(c, d, cards, pins, ins, t);
    }
  }

  // --- In time ------------------------------------------------------------------------------

  /** No fill of output k is busy for more than `fill` cycles, and that and two cycles more fit in the part of a
      row before the next row is first read. */
  predicate FastEnough(run: seq<Path>, k: nat, c: SP.Cfg, d: int, fill: nat) {
    Deadline.FastFills(Buffers(run, k), fill) && fill + 2 <= d * SP.Columns(c) * (16 - c.order.adv)
  }

  lemma Budget(c: SP.Cfg, d: int, fill: int)
    requires fill + 2 <= d * SP.Columns(c) * (16 - c.order.adv)
    ensures 16 * (fill + 2) <= Pacing.Period(c, d) * (16 - c.order.adv)
  {
    var k, ahead := d * SP.Columns(c), 16 - c.order.adv;
    assert Pacing.Period(c, d) == 16 * k;
    assert (16 * k) * ahead == 16 * (k * ahead);
  }

  /** NO READ IS EARLY. With fills fast enough, every read of the stage after the first row finds its slot
      complete: rows, their length and the looking ahead are the stage's own. */
  lemma NoReadIsEarly(b: Build, run: seq<Path>, envs: seq<Env>, k: nat, c: SP.Cfg, d: int, cards: seq<Pacing.Card>,
                      pins: seq<SP.In>, fill: nat, t: nat)
    requires Linked(b, run, envs, k, c, d, cards, pins) && FastEnough(run, k, c, d, fill) && t < |envs|
    requires TS.Reading(Views(b, run, envs, k), t) >= 1
    ensures Fits(b, run[t], envs[t]) && PrimedIn(b, run[t], envs[t], k)
  {
    BufferRun(b, run, envs, k, c, d, cards, pins);
    PacedOutput(b, run, envs, k, c, d, cards, pins);
    Budget(c, d, fill);
    Deadline.NoReadIsEarly(FetchUnit.BufferCfg(b.outputs[k]), Buffers(run, k), Views(b, run, envs, k), Pacing.Period(c, d),
                           c.order.adv, fill, t);
    ViewAt(b, run, envs, k, c, d, cards, pins, t);
  }

  /** NO READ IS LATE, with fills that may take longer than a row: once the buffer has come to rest before row 0
      is left, and its fills fit together from rest to rest, every later read finds its slot complete. */
  lemma NoReadIsLate(b: Build, run: seq<Path>, envs: seq<Env>, k: nat, c: SP.Cfg, d: int, cards: seq<Pacing.Card>,
                     pins: seq<SP.In>, first: nat, t: nat)
    requires Linked(b, run, envs, k, c, d, cards, pins) && first < t < |envs|
    requires 0 <= Pacing.Period(c, d) && ThirdSlot.FitTogether(Buffers(run, k), Pacing.Period(c, d), c.order.adv)
    requires ThirdSlot.Rests(Buffers(run, k), first) && TS.Rows(Views(b, run, envs, k), first + 1) == 0
    requires TS.Reading(Views(b, run, envs, k), t) >= 1
    ensures Fits(b, run[t], envs[t]) && PrimedIn(b, run[t], envs[t], k)
  {
    BufferRun(b, run, envs, k, c, d, cards, pins);
    PacedOutput(b, run, envs, k, c, d, cards, pins);
    ThirdSlot.NoReadIsLate(FetchUnit.BufferCfg(b.outputs[k]), Buffers(run, k), Views(b, run, envs, k), Pacing.Period(c, d),
                           c.order.adv, first, t);
    ViewAt(b, run, envs, k, c, d, cards, pins, t);
  }

  /** EVERY PIXEL ON TIME. For any memory contents, writes, flips, latency and contention that keep fills fast
      enough, every read after the first row registers, group by group, the converted word that the memory held
      at base + row * width + column + offset when it took that entry's own read. */
  lemma EveryPixelOnTime(b: Build, run: seq<Path>, envs: seq<Env>, k: nat, c: SP.Cfg, d: int, cards: seq<Pacing.Card>,
                         pins: seq<SP.In>, fill: nat, t: nat, g: int)
    requires Linked(b, run, envs, k, c, d, cards, pins) && FastEnough(run, k, c, d, fill) && t < |envs| && 0 <= g < 4
    requires TS.Reading(Views(b, run, envs, k), t) >= 1
    ensures Fits(b, run[t], envs[t]) && k < |run[t].units| && k < |run[t + 1].units| && |b.outputs[k].offsets| == 4
    ensures var ctl, u, slot := cards[t].stage.ctl, run[t].units[k], SlotRead(b, run[t], envs[t], k);
            && 0 <= slot < 3 == |u.done| && u.done[slot].until <= t
            && var got := run[t + 1].units[k].lb.q.rdData;
               && |got| == 4
               && Fetched(b.outputs[k], envs, k, u.done[slot], SP.RowA(c, ctl.row, ctl.chan),
                          SP.Column(c.order, ctl.chan, ctl.sect), g, got[g])
  {
    NoReadIsEarly(b, run, envs, k, c, d, cards, pins, fill, t);
    PrimedReadsAreFetched(b, run, envs, t, k, g);
    assert LinkedAt(envs, k, c, cards, t);
  }
}
