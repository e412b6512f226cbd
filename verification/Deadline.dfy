/** If every fill is fast enough, no read after the first row comes too early. */
module Deadline {
  import opened LineBuffer
  import opened ThreeSlots

  /** Cycles since the serialiser entered its row (since reset for the first one). */
  function Since(ins: seq<In>, t: nat): nat
    requires t < |ins|
  {
    if t == 0 || Moved(ins, t) then 0 else Since(ins, t - 1) + 1
  }

  /** A row lasts at least `period` cycles, and the next row is only read in its last `adv` sixteenths. */
  predicate PacedAt(ins: seq<In>, period: int, adv: int, t: nat)
    requires t < |ins|
  {
    && (t == 0 ==> !Moved(ins, t))
    && (t > 0 && Moved(ins, t) ==> Since(ins, t - 1) + 1 >= period)
    && (ins[t].row != ins[t].base ==> 16 * Since(ins, t) >= period * (16 - adv))
  }

  predicate Paced(ins: seq<In>, period: int, adv: int) {
    forall t | 0 <= t < |ins| :: PacedAt(ins, period, adv, t)
  }

  predicate Pauses(run: seq<State>, t: nat, fill: nat)
    requires t + fill < |run|
  {
    exists u | t <= u <= t + fill :: !run[u].q.filling
  }

  /** No fill is busy for more than `fill` cycles. */
  predicate FastFills(run: seq<State>, fill: nat) {
    forall t: nat | t + fill < |run| :: Pauses(run, t, fill)
  }

  /** The row and slot of the fill in progress are those of row `a`. */
  predicate Targets(c: Cfg, q: Regs, a: nat) { q.row == RowOf(c, a) && q.slot == SlotOf(a) }

  /** Being filled ever since the cycle after the row was entered. */
  predicate BusySince(run: seq<State>, from: nat, to: nat)
    requires to < |run|
  {
    forall s | from < s <= to :: run[s].q.filling
  }

  /** The state a cycle into row `n` after `since` cycles: the row is there, the next one is there or on its way. */
  predicate OnTime(c: Cfg, q: Regs, n: nat)
    requires Sized(q)
  {
    && (n >= 1 ==> Holds(c, q, n))
    && (q.filling ==> Targets(c, q, n + 1) || (Targets(c, q, n + 2) && Holds(c, q, n + 1)))
  }

  lemma IdleStarts(c: Cfg, q: Regs, base: int, n: nat)
    requires Sized(q) && !q.filling && base == RowOf(c, n) && SlotNow(q, base) == SlotOf(n)
    ensures var q' := IdleNext(c, q, base);
            && Sized(q')
            && (q'.filling ==> Targets(c, q', n + 1) || (Targets(c, q', n + 2) && Holds(c, q', n + 1)))
            && (q'.filling || Holds(c, q', n + 1))
  {
    NextTwo(c, n);
  }

  lemma FillLands(c: Cfg, q: Regs, ack: bool, valid: bool, n: nat)
    requires Sized(q) && q.filling && !q.ok[q.slot]
    requires Targets(c, q, n + 1) || (Targets(c, q, n + 2) && Holds(c, q, n + 1))
    ensures var q' := StoreNext(c, RequestNext(c, q, ack), valid);
            && Sized(q')
            && (q'.filling ==> Targets(c, q', n + 1) || (Targets(c, q', n + 2) && Holds(c, q', n + 1)))
            && (q'.filling || Holds(c, q', n + 1))
  {
  }

  /** A cycle within row `n`. */
  lemma OnTimeStep(c: Cfg, s: State, i: In, n: nat)
    requires Shaped(c, s, i) && Tracks(c, s.q, n) && Turns(c, s.q, i.base)
    requires OnTime(c, s.q, RowsAfter(s.q, i.base, n))
    ensures var q, m := QNext(c, s, i), RowsAfter(s.q, i.base, n);
            Sized(q) && OnTime(c, q, m) && (q.filling || Holds(c, q, m + 1))
  {
    var m := RowsAfter(s.q, i.base, n);
    if m >= 1 { HoldsStep(c, s, i, n, m); }
    if s.q.filling {
      FillLands(c, s.q, i.reqAck, i.valid, m);
    } else {
      MovesTurnTheSlot(c, s.q, n, i.base);
      IdleStarts(c, s.q, i.base, m);
    }
  }

  /** Entering the next row once it is there. */
  lemma OnTimeMoves(c: Cfg, q: Regs, n: nat)
    requires Sized(q) && (q.filling ==> !q.ok[q.slot]) && OnTime(c, q, n) && Holds(c, q, n + 1)
    ensures OnTime(c, q, n + 1)
  {
  }

  predicate Good(c: Cfg, run: seq<State>, ins: seq<In>, t: nat)
    requires t < |ins| && |run| == |ins| + 1
  {
    var n, q := Rows(ins, t + 1), run[t].q;
    && Sized(q) && OnTime(c, q, n)
    && Since(ins, t) <= t
    && (Holds(c, q, n + 1) || BusySince(run, t - Since(ins, t), t))
  }

  /** A row that has been busy for longer than a fill takes is there. */
  lemma BusyIsBounded(c: Cfg, run: seq<State>, ins: seq<In>, t: nat, fill: nat)
    requires t < |ins| && |run| == |ins| + 1 && FastFills(run, fill) && Good(c, run, ins, t)
    requires Since(ins, t) >= fill + 1
    ensures Holds(c, run[t].q, Rows(ins, t + 1) + 1)
  {
    var from := t - Since(ins, t);
    if BusySince(run, from, t) {
      assert Pauses(run, from + 1, fill);
    }
  }

  /** What a cycle makes of the row the serialiser is then in. */
  lemma NextIsOnTime(c: Cfg, run: seq<State>, ins: seq<In>, t: nat)
    requires IsRun(c, run, ins) && t < |ins| && Good(c, run, ins, t)
    ensures var q, m := run[t + 1].q, Rows(ins, t + 1);
            Tracks(c, q, m) && OnTime(c, q, m) && (q.filling || Holds(c, q, m + 1))
            && (Holds(c, run[t].q, m + 1) ==> Holds(c, q, m + 1))
  {
    RunTracks(c, run, ins, t);
    RunTracks(c, run, ins, t + 1);
    CycleOf(c, run, ins, t);
    OnTimeStep(c, run[t], ins[t], Rows(ins, t));
    if Holds(c, run[t].q, Rows(ins, t + 1) + 1) {
      HeldOneMore(c, run, ins, t, Rows(ins, t + 1) + 1);
    }
  }

  lemma BusyGrows(run: seq<State>, from: nat, to: nat)
    requires to + 1 < |run| && BusySince(run, from, to) && run[to + 1].q.filling
    ensures BusySince(run, from, to + 1)
  {
  }

  lemma {:induction false} GoodRun(c: Cfg, run: seq<State>, ins: seq<In>, period: nat, adv: int, fill: nat, t: nat)
    requires IsRun(c, run, ins) && Paced(ins, period, adv) && FastFills(run, fill) && t < |ins|
    requires period >= fill + 2
    ensures Good(c, run, ins, t)
  {
    assert PacedAt(ins, period, adv, t);
    if t > 0 {
      GoodRun(c, run, ins, period, adv, fill, t - 1);
      NextIsOnTime(c, run, ins, t - 1);
      if Moved(ins, t) {
        BusyIsBounded(c, run, ins, t - 1, fill);
        OnTimeMoves(c, run[t].q, Rows(ins, t));
      } else if !Holds(c, run[t].q, Rows(ins, t) + 1) {
        BusyGrows(run, t - 1 - Since(ins, t - 1), t - 1);
      }
    }
  }

  /** THE DEADLINE. If a fill is never busy for more than `fill` cycles, and that plus one cycle fits in
      the (16 - adv) sixteenths of a row before the next row is first read, then every read after the
      first row finds its slot complete. */
  lemma NoReadIsEarly(c: Cfg, run: seq<State>, ins: seq<In>, period: nat, adv: nat, fill: nat, t: nat)
    requires IsRun(c, run, ins) && Paced(ins, period, adv) && FastFills(run, fill) && t < |ins|
    requires adv < 8 && 16 * (fill + 2) <= period * (16 - adv)
    requires Reading(ins, t) >= 1
    ensures Shaped(c, run[t], ins[t]) && Primed(run[t].q, ins[t])
  {
    RowIsLonger(period, adv, fill);
    GoodRun(c, run, ins, period, adv, fill, t);
    ReadsItsRow(c, run, ins, t);
    assert CycleAt(c, run, ins, t) && PacedAt(ins, period, adv, t);
    if ins[t].row != ins[t].base {
      BusyIsBounded(c, run, ins, t, fill);
    }
  }

  lemma RowIsLonger(period: nat, adv: nat, fill: nat)
    requires 16 * (fill + 2) <= period * (16 - adv)
    ensures period >= fill + 2
  {
    assert period * (16 - adv) == 16 * period - period * adv;
    assert period * adv >= 0;
  }
}
