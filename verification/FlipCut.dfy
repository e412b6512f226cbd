/** A flip in the middle of a frame of the panel: the rows above a cut are the old frame's, the rows below it
    the new one's, and only the row being fetched when the engine flipped can be of both. */
module FlipCut {
  import PS = PixelSource
  import LB = LineBuffer
  import SP = Spwm
  import FetchUnit
  import TS = ThreeSlots
  import Deadline
  import FillOrder
  import Pacing
  import opened FetchPath
  import opened ScanOut
  import opened Freshness
  import opened Glass

  // --- A slot that still holds its row keeps its fill ---------------------------------------

  lemma DoneKept(c: PS.Cfg, u: FetchUnit.Unit, i: FetchUnit.In, slot: int)
    requires FetchUnit.Shaped(c, u, i) && Slotted(u) && 0 <= slot < 3 && u.lb.q.ok[slot]
    ensures FetchUnit.Next(c, u, i).done[slot] == u.done[slot]
  {
  }

  predicate HeldIn(b: Build, run: seq<Path>, k: nat, t: nat, a: nat) {
    && t < |run| && SlottedAt(run[t], k) && k < |b.outputs|
    && TS.Holds(FetchUnit.BufferCfg(b.outputs[k]), run[t].units[k].lb.q, a)
  }

  lemma HeldLater(b: Build, run: seq<Path>, envs: seq<Env>, k: nat, c: SP.Cfg, d: int, cards: seq<Pacing.Card>,
                  pins: seq<SP.In>, from: nat, t: nat, a: nat)
    requires Linked(b, run, envs, k, c, d, cards, pins) && from <= t < |run| && HeldIn(b, run, k, from, a)
    requires FillOrder.Window(Views(b, run, envs, k), from, t, a)
    ensures HeldIn(b, run, k, t, a)
  {
    BufferRun(b, run, envs, k, c, d, cards, pins);
    TS.HeldRowsStay(FetchUnit.BufferCfg(b.outputs[k]), Buffers(run, k), Views(b, run, envs, k), from, t, a);
    SlottedInv(b, run, envs, k, t);
  }

  lemma DoneNext(b: Build, run: seq<Path>, envs: seq<Env>, k: nat, t: nat, a: nat)
    requires IsPathRun(b, run, envs) && k < b.arb.n && t < |envs| && HeldIn(b, run, k, t, a)
    ensures SlottedAt(run[t + 1], k) && run[t + 1].units[k].done[TS.SlotOf(a)] == run[t].units[k].done[TS.SlotOf(a)]
  {
    CycleOf(b, run, envs, t);
    SlottedInv(b, run, envs, k, t + 1);
    DoneKept(b.outputs[k], run[t].units[k], UnitIn(b, run[t], envs[t], k), TS.SlotOf(a));
  }

  lemma HeldThroughout(b: Build, run: seq<Path>, envs: seq<Env>, k: nat, c: SP.Cfg, d: int, cards: seq<Pacing.Card>,
                       pins: seq<SP.In>, from: nat, t: nat, a: nat)
    requires Linked(b, run, envs, k, c, d, cards, pins) && t < |run| && HeldIn(b, run, k, from, a)
    requires FillOrder.Window(Views(b, run, envs, k), from, t, a)
    ensures forall s: nat | from <= s <= t :: HeldIn(b, run, k, s, a)
  {
    forall s: nat | from <= s <= t
      ensures HeldIn(b, run, k, s, a)
    {
      FillOrder.WindowBack(Views(b, run, envs, k), from, t, a, s);
      HeldLater(b, run, envs, k, c, d, cards, pins, from, s, a);
    }
  }

  lemma {:induction false} DoneStays(b: Build, run: seq<Path>, envs: seq<Env>, k: nat, from: nat, t: nat, a: nat)
    requires IsPathRun(b, run, envs) && k < b.arb.n && from <= t < |run|
    requires forall s: nat | from <= s <= t :: HeldIn(b, run, k, s, a)
    ensures SlottedAt(run[t], k) && SlottedAt(run[from], k)
    ensures run[t].units[k].done[TS.SlotOf(a)] == run[from].units[k].done[TS.SlotOf(a)]
  {
    assert HeldIn(b, run, k, from, a);
    if t > from {
      DoneStays(b, run, envs, k, from, t - 1, a);
      assert HeldIn(b, run, k, t - 1, a);
      DoneNext(b, run, envs, k, t - 1, a);
    }
  }

  // --- A row not begun is fetched afterwards ------------------------------------------------

  /** If the slot holds the row, or is being filled with it, that fill was begun in or after cycle `from`. */
  predicate OnlySince(u: FetchUnit.Unit, slot: int, row: int, from: int)
    requires Slotted(u) && 0 <= slot < 3
  {
    && (u.lb.q.ok[slot] && u.lb.q.held[slot] == row ==> u.done[slot].since >= from)
    && (u.lb.q.filling && u.lb.q.slot == slot && u.lb.q.row == row ==> u.fill.since >= from)
  }

  lemma SinceRests(c: PS.Cfg, u: FetchUnit.Unit, i: FetchUnit.In, slot: int, row: int, from: int)
    requires FetchUnit.Shaped(c, u, i) && Slotted(u) && 0 <= slot < 3 && OnlySince(u, slot, row, from) && from <= i.now
    requires !u.lb.q.filling && Slotted(FetchUnit.Next(c, u, i))
    ensures OnlySince(FetchUnit.Next(c, u, i), slot, row, from)
  {
  }

  lemma SinceFills(c: PS.Cfg, u: FetchUnit.Unit, i: FetchUnit.In, slot: int, row: int, from: int)
    requires FetchUnit.Shaped(c, u, i) && Slotted(u) && 0 <= slot < 3 && OnlySince(u, slot, row, from) && from <= i.now
    requires u.lb.q.filling && Slotted(FetchUnit.Next(c, u, i))
    ensures OnlySince(FetchUnit.Next(c, u, i), slot, row, from)
  {
  }

  lemma SinceNext(b: Build, run: seq<Path>, envs: seq<Env>, k: nat, t: nat, slot: int, row: int, from: nat)
    requires IsPathRun(b, run, envs) && k < b.arb.n && from <= t < |envs| && 0 <= slot < 3
    requires SlottedAt(run[t], k) && OnlySince(run[t].units[k], slot, row, from)
    ensures SlottedAt(run[t + 1], k) && OnlySince(run[t + 1].units[k], slot, row, from)
  {
    CycleOf(b, run, envs, t);
    SlottedInv(b, run, envs, k, t + 1);
    var c, u, i := b.outputs[k], run[t].units[k], UnitIn(b, run[t], envs[t], k);
    if u.lb.q.filling { SinceFills(c, u, i, slot, row, from); } else { SinceRests(c, u, i, slot, row, from); }
  }

  lemma {:induction false} SinceThen(b: Build, run: seq<Path>, envs: seq<Env>, k: nat, slot: int, row: int, from: nat, t: nat)
    requires IsPathRun(b, run, envs) && k < b.arb.n && from <= t < |run| && 0 <= slot < 3
    requires SlottedAt(run[from], k) && OnlySince(run[from].units[k], slot, row, from)
    ensures SlottedAt(run[t], k) && OnlySince(run[t].units[k], slot, row, from)
  {
    if t > from {
      SinceThen(b, run, envs, k, slot, row, from, t - 1);
      SinceNext(b, run, envs, k, t - 1, slot, row, from);
    }
  }

  // --- The cut ------------------------------------------------------------------------------

  lemma InOrderAt(b: Build, run: seq<Path>, envs: seq<Env>, k: nat, c: SP.Cfg, d: int, cards: seq<Pacing.Card>,
                  pins: seq<SP.In>, fill: nat, at: nat)
    requires Linked(b, run, envs, k, c, d, cards, pins) && FastEnough(run, k, c, d, fill) && at < |run|
    ensures SlottedAt(run[at], k)
    ensures FillOrder.InOrder(FetchUnit.BufferCfg(b.outputs[k]), run[at].units[k].lb.q, TS.Rows(Views(b, run, envs, k), at))
  {
    BufferRun(b, run, envs, k, c, d, cards, pins);
    SlottedInv(b, run, envs, k, at);
    var period, adv := PaceOf(b, run, envs, k, c, d, cards, pins, fill);
    FillOrder.InOrderRun(FetchUnit.BufferCfg(b.outputs[k]), Buffers(run, k), Views(b, run, envs, k), period, adv, fill, at);
  }

  /** Output k's cut at a cycle, in rows counted from reset. */
  function CutAt(b: Build, run: seq<Path>, envs: seq<Env>, k: nat, at: nat): nat
    requires at < |run| == |envs| + 1 && k < |b.outputs| && SlottedAt(run[at], k)
  {
    FillOrder.Cut(FetchUnit.BufferCfg(b.outputs[k]), run[at].units[k].lb.q, TS.Rows(Views(b, run, envs, k), at))
  }

  /** The row read in cycle t lies above the cut of cycle `at`: if it is read afterwards, it was there. */
  predicate Above(b: Build, run: seq<Path>, envs: seq<Env>, k: nat, at: nat, t: nat) {
    && t < |envs| && at < |run| == |envs| + 1 && k < |b.outputs| && SlottedAt(run[at], k)
    && 4 <= TS.Reading(Views(b, run, envs, k), t) < CutAt(b, run, envs, k, at)
  }

  /** The row read in cycle t lies below the cut, or at it with nothing being fetched: it had not been begun. */
  predicate Below(b: Build, run: seq<Path>, envs: seq<Env>, k: nat, at: nat, t: nat) {
    && t < |envs| && at < |run| == |envs| + 1 && k < |b.outputs| && SlottedAt(run[at], k)
    && 4 <= TS.Reading(Views(b, run, envs, k), t)
    && CutAt(b, run, envs, k, at) <= TS.Reading(Views(b, run, envs, k), t)
    && (CutAt(b, run, envs, k, at) == TS.Reading(Views(b, run, envs, k), t) ==> !run[at].units[k].lb.q.filling)
  }

  lemma HeldAtCut(b: Build, run: seq<Path>, envs: seq<Env>, k: nat, c: SP.Cfg, d: int, cards: seq<Pacing.Card>,
                  pins: seq<SP.In>, fill: nat, at: nat, t: nat)
    requires Linked(b, run, envs, k, c, d, cards, pins) && FastEnough(run, k, c, d, fill) && Above(b, run, envs, k, at, t) && at <= t
    ensures var ins := Views(b, run, envs, k);
            HeldIn(b, run, k, at, TS.Reading(ins, t)) && FillOrder.Window(ins, at, t, TS.Reading(ins, t))
  {
    InOrderAt(b, run, envs, k, c, d, cards, pins, fill, at);
    FillOrder.HeldAbove(FetchUnit.BufferCfg(b.outputs[k]), run[at].units[k].lb.q, Views(b, run, envs, k), at, t);
  }

  /** What is read above the cut was fetched before. */
  lemma AboveIsBefore(b: Build, run: seq<Path>, envs: seq<Env>, k: nat, c: SP.Cfg, d: int, cards: seq<Pacing.Card>,
                      pins: seq<SP.In>, fill: nat, at: nat, t: nat)
    requires Linked(b, run, envs, k, c, d, cards, pins) && FastEnough(run, k, c, d, fill) && Above(b, run, envs, k, at, t) && at <= t
    ensures Fits(b, run[t], envs[t]) && SlottedAt(run[t], k)
    ensures var slot := SlotRead(b, run[t], envs[t], k); 0 <= slot < 3 && run[t].units[k].done[slot].until <= at
  {
    HeldAtCut(b, run, envs, k, c, d, cards, pins, fill, at, t);
    var a := TS.Reading(Views(b, run, envs, k), t);
    HeldThroughout(b, run, envs, k, c, d, cards, pins, at, t, a);
    DoneStays(b, run, envs, k, at, t, a);
    SlotOfReading(b, run, envs, k, c, d, cards, pins, fill, t);
    RunTrue(b, run, envs, at, k);
    PathRunInv(b, run, envs, at);
  }

  /** What is read below it was fetched afterwards. */
  lemma BelowIsAfter(b: Build, run: seq<Path>, envs: seq<Env>, k: nat, c: SP.Cfg, d: int, cards: seq<Pacing.Card>,
                     pins: seq<SP.In>, fill: nat, at: nat, t: nat)
    requires Linked(b, run, envs, k, c, d, cards, pins) && FastEnough(run, k, c, d, fill) && Below(b, run, envs, k, at, t) && at <= t
    ensures Fits(b, run[t], envs[t]) && SlottedAt(run[t], k)
    ensures var slot := SlotRead(b, run[t], envs[t], k); 0 <= slot < 3 && run[t].units[k].done[slot].since >= at
  {
    var lc, ins := FetchUnit.BufferCfg(b.outputs[k]), Views(b, run, envs, k);
    var a := TS.Reading(ins, t);
    if a >= TS.Rows(ins, at) + 3 {
      RecentlyFilled(b, run, envs, k, c, d, cards, pins, fill, at, t);
    } else {
      InOrderAt(b, run, envs, k, c, d, cards, pins, fill, at);
      FillOrder.CutAbove(lc, run[at].units[k].lb.q, TS.Rows(ins, at), a);
      SinceThen(b, run, envs, k, TS.SlotOf(a), TS.RowOf(lc, a), at, t);
      SlotOfReading(b, run, envs, k, c, d, cards, pins, fill, t);
    }
  }

  // --- Two pictures -------------------------------------------------------------------------

  /** Above the cut a read is of the picture that was still until cycle `at`. */
  lemma AboveReadsOld(x: Side, s: Shown, at: nat, t: nat, g: int)
    requires Panel(x) && ThreeRowsOn(x, s.from, t) && Above(x.b, x.run, x.envs, x.k, at, t) && at <= t && 0 <= g < 4
    requires |x.b.outputs[x.k].offsets| == 4 && Still(x.b.outputs[x.k], x.envs, x.k, s.base, s.pic, s.from, at)
    ensures ReadsPicture(x, s.pic, t, g)
  {
    AboveIsBefore(x.b, x.run, x.envs, x.k, x.c, x.d, x.cards, x.pins, x.fill, at, t);
    RecentlyFilled(x.b, x.run, x.envs, x.k, x.c, x.d, x.cards, x.pins, x.fill, s.from, t);
    FilledFromPicture(x.b, x.run, x.envs, x.k, x.c, x.d, x.cards, x.pins, x.fill, s.from, at, t, s.base, s.pic, g);
  }

  /** Below it a read is of the picture that has been still since. */
  lemma BelowReadsNew(x: Side, s: Shown, t: nat, g: int)
    requires Panel(x) && Below(x.b, x.run, x.envs, x.k, s.from, t) && s.from <= t && 0 <= g < 4
    requires |x.b.outputs[x.k].offsets| == 4 && Still(x.b.outputs[x.k], x.envs, x.k, s.base, s.pic, s.from, t)
    ensures ReadsPicture(x, s.pic, t, g)
  {
    BelowIsAfter(x.b, x.run, x.envs, x.k, x.c, x.d, x.cards, x.pins, x.fill, s.from, t);
    EveryPixelOnTime(x.b, x.run, x.envs, x.k, x.c, x.d, x.cards, x.pins, x.fill, t, g);
    FilledFromPicture(x.b, x.run, x.envs, x.k, x.c, x.d, x.cards, x.pins, x.fill, s.from, t, t, s.base, s.pic, g);
  }

  /** The cut is at most three rows past the row the serialiser is in. */
  lemma CutIsNear(b: Build, run: seq<Path>, envs: seq<Env>, k: nat, at: nat)
    requires at < |run| == |envs| + 1 && k < |b.outputs| && SlottedAt(run[at], k)
    ensures var n := TS.Rows(Views(b, run, envs, k), at); n < CutAt(b, run, envs, k, at) <= n + 3
  {
  }
}
