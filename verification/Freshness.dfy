/** What a primed slot holds is recent: its fill was begun after the serialiser had left the row three back. */
module Freshness {
  import PS = PixelSource
  import LB = LineBuffer
  import SP = Spwm
  import FetchUnit
  import FetchInv
  import TS = ThreeSlots
  import Deadline
  import Pacing
  import opened FetchPath
  import opened ScanOut

  // --- A slot that changes its row has been filled since ------------------------------------

  predicate Slotted(u: FetchUnit.Unit) {
    && |u.lb.q.ok| == |u.lb.q.held| == |u.done| == 3 && 0 <= u.lb.q.slot < 3 && 0 <= u.lb.q.rdSlot < 3
    && (u.lb.q.filling ==> !u.lb.q.ok[u.lb.q.slot])
  }

  /** The slot still holds row x, or is being filled since `from`, or was. */
  predicate Turned(u: FetchUnit.Unit, slot: int, x: int, from: int)
    requires Slotted(u) && 0 <= slot < 3
  {
    || (u.lb.q.ok[slot] && (u.lb.q.held[slot] == x || u.done[slot].since >= from))
    || (u.lb.q.filling && u.lb.q.slot == slot && u.fill.since >= from)
  }

  lemma TurnRests(c: PS.Cfg, u: FetchUnit.Unit, i: FetchUnit.In, slot: int, x: int, from: int)
    requires FetchUnit.Shaped(c, u, i) && Slotted(u) && 0 <= slot < 3 && Turned(u, slot, x, from) && from <= i.now
    requires !u.lb.q.filling && Slotted(FetchUnit.Next(c, u, i))
    ensures Turned(FetchUnit.Next(c, u, i), slot, x, from)
  {
  }

  lemma TurnFills(c: PS.Cfg, u: FetchUnit.Unit, i: FetchUnit.In, slot: int, x: int, from: int)
    requires FetchUnit.Shaped(c, u, i) && Slotted(u) && 0 <= slot < 3 && Turned(u, slot, x, from) && from <= i.now
    requires u.lb.q.filling && Slotted(FetchUnit.Next(c, u, i))
    ensures Turned(FetchUnit.Next(c, u, i), slot, x, from)
  {
  }

  predicate SlottedAt(p: Path, k: nat) { k < |p.units| && Slotted(p.units[k]) }

  lemma SlottedInv(b: Build, run: seq<Path>, envs: seq<Env>, k: nat, t: nat)
    requires IsPathRun(b, run, envs) && k < b.arb.n && t < |run|
    ensures SlottedAt(run[t], k)
  {
    PathRunInv(b, run, envs, t);
    assert UnitOk(b, run[t], k);
  }

  lemma TurnNext(b: Build, run: seq<Path>, envs: seq<Env>, k: nat, t: nat, slot: int, x: int, from: nat)
    requires IsPathRun(b, run, envs) && k < b.arb.n && from <= t < |envs| && 0 <= slot < 3
    requires SlottedAt(run[t], k) && Turned(run[t].units[k], slot, x, from)
    ensures SlottedAt(run[t + 1], k) && Turned(run[t + 1].units[k], slot, x, from)
  {
    CycleOf(b, run, envs, t);
    SlottedInv(b, run, envs, k, t + 1);
    var c, u, i := b.outputs[k], run[t].units[k], UnitIn(b, run[t], envs[t], k);
    if u.lb.q.filling { TurnFills(c, u, i, slot, x, from); } else { TurnRests(c, u, i, slot, x, from); }
  }

  lemma {:induction false} TurnedSince(b: Build, run: seq<Path>, envs: seq<Env>, k: nat, slot: int, x: int, from: nat, t: nat)
    requires IsPathRun(b, run, envs) && k < b.arb.n && from <= t < |run| && 0 <= slot < 3
    requires SlottedAt(run[from], k) && run[from].units[k].lb.q.ok[slot] && run[from].units[k].lb.q.held[slot] == x
    ensures SlottedAt(run[t], k) && Turned(run[t].units[k], slot, x, from)
  {
    if t > from {
      TurnedSince(b, run, envs, k, slot, x, from, t - 1);
      TurnNext(b, run, envs, k, t - 1, slot, x, from);
    }
  }

  // --- When the row three back was left -----------------------------------------------------

  /** The cycle in which the serialiser enters its n-th row. */
  lemma {:induction false} EntryOf(ins: seq<LB.In>, t: nat, n: nat) returns (e: nat)
    requires t <= |ins| && 1 <= n <= TS.Rows(ins, t)
    ensures e < t && TS.Rows(ins, e) == n - 1 && TS.Rows(ins, e + 1) == n
  {
    if TS.Rows(ins, t - 1) >= n {
      e := EntryOf(ins, t - 1, n);
    } else {
      e := t - 1;
    }
  }

  lemma RowsDiffer(lc: LB.Cfg, a: nat)
    requires LB.ValidCfg(lc) && a >= 3
    ensures TS.RowOf(lc, a) != TS.RowOf(lc, a - 3) && TS.SlotOf(a) == TS.SlotOf(a - 3)
  {
    TS.RowsOnPanel(lc, a - 3);
    TS.RowsOnPanel(lc, a - 2);
    TS.RowsOnPanel(lc, a - 1);
    assert TS.RowOf(lc, a - 2) == LB.NextRow(lc, TS.RowOf(lc, a - 3));
    assert TS.RowOf(lc, a - 1) == LB.NextRow(lc, TS.RowOf(lc, a - 2));
    assert TS.SlotOf(a - 2) == LB.Inc3(TS.SlotOf(a - 3)) && TS.SlotOf(a - 1) == LB.Inc3(TS.SlotOf(a - 2));
  }

  /** When the serialiser enters row n, the row it leaves is still in its slot. */
  lemma LeftRowIsHeld(lc: LB.Cfg, run: seq<LB.State>, ins: seq<LB.In>, period: nat, adv: nat, fill: nat, e: nat)
    requires TS.IsRun(lc, run, ins) && Deadline.Paced(ins, period, adv) && Deadline.FastFills(run, fill)
    requires period >= fill + 2 && e < |ins| && TS.Rows(ins, e) >= 1 && TS.Rows(ins, e + 1) == TS.Rows(ins, e) + 1
    ensures TS.Sized(run[e].q) && TS.Holds(lc, run[e].q, TS.Rows(ins, e))
  {
    Deadline.GoodRun(lc, run, ins, period, adv, fill, e - 1);
    Deadline.NextIsOnTime(lc, run, ins, e - 1);
  }

  lemma SlotOfReading(b: Build, run: seq<Path>, envs: seq<Env>, k: nat, c: SP.Cfg, d: int, cards: seq<Pacing.Card>,
                      pins: seq<SP.In>, fill: nat, t: nat)
    requires Linked(b, run, envs, k, c, d, cards, pins) && FastEnough(run, k, c, d, fill) && t < |envs|
    requires TS.Reading(Views(b, run, envs, k), t) >= 1
    ensures Fits(b, run[t], envs[t]) && SlottedAt(run[t], k)
    ensures var u, slot, a := run[t].units[k], SlotRead(b, run[t], envs[t], k), TS.Reading(Views(b, run, envs, k), t);
            && slot == TS.SlotOf(a) && u.lb.q.ok[slot] && u.lb.q.held[slot] == TS.RowOf(FetchUnit.BufferCfg(b.outputs[k]), a)
  {
    NoReadIsEarly(b, run, envs, k, c, d, cards, pins, fill, t);
    BufferRun(b, run, envs, k, c, d, cards, pins);
    TS.ReadsItsRow(FetchUnit.BufferCfg(b.outputs[k]), Buffers(run, k), Views(b, run, envs, k), t);
    ViewAt(b, run, envs, k, c, d, cards, pins, t);
    SlottedInv(b, run, envs, k, t);
  }

  lemma EntryAfter(ins: seq<LB.In>, from: nat, t: nat, a: nat) returns (e: nat)
    requires from <= t < |ins| && 4 <= a <= TS.Rows(ins, t + 1) + 1 && TS.Rows(ins, from) + 3 <= a
    ensures from <= e <= t && TS.Rows(ins, e) == a - 3 && TS.Rows(ins, e + 1) == a - 2
  {
    e := EntryOf(ins, t + 1, a - 2);
    if from > e { TS.RowsMonotone(ins, e + 1, from); }
  }

  /** The slot of row a was given up by row a - 3, and not before cycle `from`. */
  lemma LeftSince(lc: LB.Cfg, states: seq<LB.State>, ins: seq<LB.In>, period: nat, adv: nat, fill: nat,
                  from: nat, t: nat, a: nat) returns (e: nat)
    requires TS.IsRun(lc, states, ins) && Deadline.Paced(ins, period, adv) && Deadline.FastFills(states, fill)
    requires period >= fill + 2 && from <= t < |ins| && 4 <= a <= TS.Rows(ins, t + 1) + 1 && TS.Rows(ins, from) + 3 <= a
    ensures from <= e <= t && TS.Sized(states[e].q) && TS.Holds(lc, states[e].q, a - 3)
  {
    e := EntryAfter(ins, from, t, a);
    LeftRowIsHeld(lc, states, ins, period, adv, fill, e);
  }

  lemma LongRows(c: SP.Cfg, d: int, fill: nat)
    requires 0 <= Pacing.Period(c, d) && 0 <= c.order.adv && fill + 2 <= d * SP.Columns(c) * (16 - c.order.adv)
    ensures Pacing.Period(c, d) >= fill + 2
  {
    Budget(c, d, fill);
    Deadline.RowIsLonger(Pacing.Period(c, d), c.order.adv, fill);
  }

  /** Output k's buffer as the deadline wants it. */
  lemma PaceOf(b: Build, run: seq<Path>, envs: seq<Env>, k: nat, c: SP.Cfg, d: int, cards: seq<Pacing.Card>,
               pins: seq<SP.In>, fill: nat) returns (period: nat, adv: nat)
    requires Linked(b, run, envs, k, c, d, cards, pins) && FastEnough(run, k, c, d, fill)
    ensures Deadline.Paced(Views(b, run, envs, k), period, adv) && period >= fill + 2
  {
    PacedOutput(b, run, envs, k, c, d, cards, pins);
    LongRows(c, d, fill);
    period, adv := Pacing.Period(c, d), c.order.adv;
  }

  lemma LeftSlot(b: Build, run: seq<Path>, envs: seq<Env>, k: nat, c: SP.Cfg, d: int, cards: seq<Pacing.Card>,
                 pins: seq<SP.In>, fill: nat, from: nat, t: nat, a: nat) returns (e: nat)
    requires Linked(b, run, envs, k, c, d, cards, pins) && FastEnough(run, k, c, d, fill) && from <= t < |envs|
    requires var ins := Views(b, run, envs, k); 4 <= a <= TS.Rows(ins, t + 1) + 1 && TS.Rows(ins, from) + 3 <= a
    ensures from <= e <= t && TS.Sized(Buffers(run, k)[e].q)
    ensures TS.Holds(FetchUnit.BufferCfg(b.outputs[k]), Buffers(run, k)[e].q, a - 3)
  {
    BufferRun(b, run, envs, k, c, d, cards, pins);
    var period, adv := PaceOf(b, run, envs, k, c, d, cards, pins, fill);
    e := LeftSince(FetchUnit.BufferCfg(b.outputs[k]), Buffers(run, k), Views(b, run, envs, k), period, adv, fill, from, t, a);
  }

  /** WHAT IS READ IS RECENT. A read of the a-th row after reset, a >= 4, finds a slot whose fill was begun in or
      after any cycle by which the serialiser had not yet gone past row a - 3. */
  lemma RecentlyFilled(b: Build, run: seq<Path>, envs: seq<Env>, k: nat, c: SP.Cfg, d: int, cards: seq<Pacing.Card>,
                       pins: seq<SP.In>, fill: nat, from: nat, t: nat)
    requires Linked(b, run, envs, k, c, d, cards, pins) && FastEnough(run, k, c, d, fill) && from <= t < |envs|
    requires TS.Reading(Views(b, run, envs, k), t) >= 4
    requires TS.Rows(Views(b, run, envs, k), from) + 3 <= TS.Reading(Views(b, run, envs, k), t)
    ensures Fits(b, run[t], envs[t]) && SlottedAt(run[t], k)
    ensures var slot := SlotRead(b, run[t], envs[t], k); 0 <= slot < 3 && run[t].units[k].done[slot].since >= from
  {
    var lc, a := FetchUnit.BufferCfg(b.outputs[k]), TS.Reading(Views(b, run, envs, k), t);
    SlotOfReading(b, run, envs, k, c, d, cards, pins, fill, t);
    var e := LeftSlot(b, run, envs, k, c, d, cards, pins, fill, from, t, a);
    SlottedInv(b, run, envs, k, e);
    RowsDiffer(lc, a);
    TurnedSince(b, run, envs, k, TS.SlotOf(a), TS.RowOf(lc, a - 3), e, t);
  }

  // --- A still picture ----------------------------------------------------------------------

  /** The words a picture puts at an output's rows, columns and groups. */
  type Picture = (int, int, int) -> int

  predicate WordIs(c: PS.Cfg, e: Env, base: int, pic: Picture, row: int, col: int, g: int)
    requires |c.offsets| == 4 && 0 <= g < 4
  {
    e.mem(PS.Address(c, base, row, col, g)) == pic(row, col, g)
  }

  /** In this cycle output k's base is `base` and the memory holds the picture there. */
  ghost predicate StillAt(c: PS.Cfg, e: Env, k: nat, base: int, pic: Picture)
    requires |c.offsets| == 4
  {
    && k < |e.bases| && e.bases[k] == base
    && forall row, col, g | 0 <= row < c.rows && 0 <= col < c.columns && 0 <= g < 4 :: WordIs(c, e, base, pic, row, col, g)
  }

  ghost predicate Still(c: PS.Cfg, envs: seq<Env>, k: nat, base: int, pic: Picture, from: int, to: int)
    requires |c.offsets| == 4
  {
    forall s | from <= s < to && 0 <= s < |envs| :: StillAt(c, envs[s], k, base, pic)
  }

  lemma StillIsSteady(c: PS.Cfg, envs: seq<Env>, k: nat, base: int, pic: Picture, from: int, to: int, since: int, until: int,
                      row: int, col: int, g: int)
    requires |c.offsets| == 4 && Still(c, envs, k, base, pic, from, to) && from <= since && until <= to
    requires 0 <= row < c.rows && 0 <= col < c.columns && 0 <= g < 4
    ensures Steady(c, envs, k, since, until, base, row, col, g, pic(row, col, g))
  {
    forall s | since < s < until && 0 <= s < |envs|
      ensures SteadyAt(c, envs[s], k, base, row, col, g, pic(row, col, g))
    {
      assert StillAt(c, envs[s], k, base, pic) && WordIs(c, envs[s], base, pic, row, col, g);
    }
  }

  /** A read from a slot that was filled while base and picture stayed registers the picture's converted word. */
  lemma FilledFromPicture(b: Build, run: seq<Path>, envs: seq<Env>, k: nat, c: SP.Cfg, d: int, cards: seq<Pacing.Card>,
                          pins: seq<SP.In>, fill: nat, from: int, to: int, t: nat, base: int, pic: Picture, g: int)
    requires Linked(b, run, envs, k, c, d, cards, pins) && FastEnough(run, k, c, d, fill) && t < |envs| && 0 <= g < 4
    requires TS.Reading(Views(b, run, envs, k), t) >= 1
    requires |b.outputs[k].offsets| == 4 && Still(b.outputs[k], envs, k, base, pic, from, to)
    requires Fits(b, run[t], envs[t]) && SlottedAt(run[t], k)
    requires var slot := SlotRead(b, run[t], envs[t], k);
             0 <= slot < 3 && from <= run[t].units[k].done[slot].since && run[t].units[k].done[slot].until <= to
    ensures k < |run[t + 1].units|
    ensures var ctl, got := cards[t].stage.ctl, run[t + 1].units[k].lb.q.rdData;
            && |got| == 4
            && got[g] == b.outputs[k].conv(pic(SP.RowA(c, ctl.row, ctl.chan), SP.Column(c.order, ctl.chan, ctl.sect), g))
  {
    EveryPixelOnTime(b, run, envs, k, c, d, cards, pins, fill, t, g);
    var ctl, f := cards[t].stage.ctl, run[t].units[k].done[SlotRead(b, run[t], envs[t], k)];
    var row, col := SP.RowA(c, ctl.row, ctl.chan), SP.Column(c.order, ctl.chan, ctl.sect);
    CycleOf(b, run, envs, t);
    assert LinkedAt(envs, k, c, cards, t) && OnPanel(b.outputs[k], envs[t].spots[k]);
    StillIsSteady(b.outputs[k], envs, k, base, pic, from, to, f.since, f.until, row, col, g);
    FetchedIsPlain(b.outputs[k], envs, k, f, row, col, g, run[t + 1].units[k].lb.q.rdData[g], base, pic(row, col, g));
  }

  /** A STILL PICTURE IS READ AS IT IS. While base and picture stay, from three rows back, every read registers
      the picture's converted word for its row, column and group. */
  lemma StillPictureIsRead(b: Build, run: seq<Path>, envs: seq<Env>, k: nat, c: SP.Cfg, d: int, cards: seq<Pacing.Card>,
                           pins: seq<SP.In>, fill: nat, from: nat, t: nat, base: int, pic: Picture, g: int)
    requires Linked(b, run, envs, k, c, d, cards, pins) && FastEnough(run, k, c, d, fill) && from <= t < |envs|
    requires TS.Reading(Views(b, run, envs, k), t) >= 4 && 0 <= g < 4
    requires TS.Rows(Views(b, run, envs, k), from) + 3 <= TS.Reading(Views(b, run, envs, k), t)
    requires |b.outputs[k].offsets| == 4 && Still(b.outputs[k], envs, k, base, pic, from, t)
    ensures k < |run[t + 1].units|
    ensures var ctl, got := cards[t].stage.ctl, run[t + 1].units[k].lb.q.rdData;
            && |got| == 4
            && got[g] == b.outputs[k].conv(pic(SP.RowA(c, ctl.row, ctl.chan), SP.Column(c.order, ctl.chan, ctl.sect), g))
  {
    EveryPixelOnTime(b, run, envs, k, c, d, cards, pins, fill, t, g);
    RecentlyFilled(b, run, envs, k, c, d, cards, pins, fill, from, t);
    FilledFromPicture(b, run, envs, k, c, d, cards, pins, fill, from, t, t, base, pic, g);
  }
}
