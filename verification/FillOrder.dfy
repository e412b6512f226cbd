/** Rows are fetched in order: at any moment the rows ahead fall into those there, at most one being fetched,
    and those not begun. */
module FillOrder {
  import opened LineBuffer
  import opened ThreeSlots
  import opened Deadline

  /** No row is there before the one in front of it; and before the first wrap row 0 never is. */
  predicate Ordered(c: Cfg, q: Regs, n: nat) {
    && Sized(q)
    && (Holds(c, q, n + 2) ==> Holds(c, q, n + 1))
    && (n == 0 ==> !q.ok[0])
  }

  lemma ThreeOn(c: Cfg, n: nat)
    requires ValidCfg(c)
    ensures SlotOf(n + 3) == SlotOf(n) && RowOf(c, n + 3) != RowOf(c, n)
  {
    RowsOnPanel(c, n);
    NextTwo(c, n);
    NextTwo(c, n + 1);
  }

  /** Entering the next row. */
  lemma OrderedMoves(c: Cfg, q: Regs, n: nat)
    requires ValidCfg(c) && Ordered(c, q, n) && (n >= 1 ==> Holds(c, q, n))
    ensures Ordered(c, q, n + 1)
  {
    ThreeOn(c, n);
  }

  lemma OrderedIdle(c: Cfg, q: Regs, base: int, n: nat)
    requires Ordered(c, q, n) && !q.filling && base == RowOf(c, n) && SlotNow(q, base) == SlotOf(n)
    ensures Ordered(c, IdleNext(c, q, base), n)
  {
    NextTwo(c, n);
  }

  /** The end of a fill of row n + 1, or of row n + 2 once n + 1 is there. */
  lemma OrderedStore(c: Cfg, q: Regs, n: nat)
    requires Ordered(c, q, n) && (Targets(c, q, n + 1) || (Targets(c, q, n + 2) && Holds(c, q, n + 1)))
    ensures Ordered(c, Stored(q), n)
  {
    NextTwo(c, n);
  }

  /** Order is a matter of what the slots hold. */
  lemma SameSlots(c: Cfg, q: Regs, q': Regs, n: nat)
    requires Ordered(c, q, n) && Sized(q') && q'.held == q.held && q'.ok == q.ok
    ensures Ordered(c, q', n)
  {
  }

  function Stored(q: Regs): Regs
    requires Sized(q)
  {
    q.(filling := false, held := q.held[q.slot := q.row], ok := q.ok[q.slot := true])
  }

  lemma FillingSlots(c: Cfg, s: State, i: In)
    requires Shaped(c, s, i) && s.q.filling
    ensures var q := QNext(c, s, i);
            && Sized(q)
            && (if i.valid && s.q.col == c.columns - 1 then q.held == Stored(s.q).held && q.ok == Stored(s.q).ok
                else q.held == s.q.held && q.ok == s.q.ok)
  {
  }

  lemma OrderedFilling(c: Cfg, s: State, i: In, n: nat)
    requires Shaped(c, s, i) && Ordered(c, s.q, n) && OnTime(c, s.q, n) && s.q.filling
    ensures Ordered(c, QNext(c, s, i), n)
  {
    FillingSlots(c, s, i);
    if i.valid && s.q.col == c.columns - 1 {
      OrderedStore(c, s.q, n);
      SameSlots(c, Stored(s.q), QNext(c, s, i), n);
    } else {
      SameSlots(c, s.q, QNext(c, s, i), n);
    }
  }

  lemma OrderedResting(c: Cfg, s: State, i: In, n: nat)
    requires Shaped(c, s, i) && Ordered(c, s.q, n) && !s.q.filling
    requires i.base == RowOf(c, n) && SlotNow(s.q, i.base) == SlotOf(n)
    ensures Ordered(c, QNext(c, s, i), n)
  {
    OrderedIdle(c, s.q, i.base, n);
    SameSlots(c, IdleNext(c, s.q, i.base), QNext(c, s, i), n);
  }

  lemma OrderedStep(c: Cfg, s: State, i: In, n: nat)
    requires Shaped(c, s, i) && Tracks(c, s.q, n) && Turns(c, s.q, i.base) && Ordered(c, s.q, n)
    requires OnTime(c, s.q, n) && OnTime(c, s.q, RowsAfter(s.q, i.base, n))
    ensures Ordered(c, QNext(c, s, i), RowsAfter(s.q, i.base, n))
  {
    var m := RowsAfter(s.q, i.base, n);
    if m != n { OrderedMoves(c, s.q, n); }
    if s.q.filling {
      OrderedFilling(c, s, i, m);
    } else {
      MovesTurnTheSlot(c, s.q, n, i.base);
      OrderedResting(c, s, i, m);
    }
  }

  /** The registers after n rows: in time and in order. */
  predicate InOrder(c: Cfg, q: Regs, n: nat) { Tracks(c, q, n) && OnTime(c, q, n) && Ordered(c, q, n) }

  lemma InOrderStep(c: Cfg, run: seq<State>, ins: seq<In>, period: nat, adv: int, fill: nat, t: nat)
    requires IsRun(c, run, ins) && Paced(ins, period, adv) && FastFills(run, fill) && period >= fill + 2 && t < |ins|
    requires InOrder(c, run[t].q, Rows(ins, t))
    ensures InOrder(c, run[t + 1].q, Rows(ins, t + 1))
  {
    GoodRun(c, run, ins, period, adv, fill, t);
    NextIsOnTime(c, run, ins, t);
    RunTracks(c, run, ins, t);
    CycleOf(c, run, ins, t);
    OrderedStep(c, run[t], ins[t], Rows(ins, t));
  }

  lemma {:induction false} InOrderRun(c: Cfg, run: seq<State>, ins: seq<In>, period: nat, adv: int, fill: nat, t: nat)
    requires IsRun(c, run, ins) && Paced(ins, period, adv) && FastFills(run, fill) && period >= fill + 2 && t <= |ins|
    ensures InOrder(c, run[t].q, Rows(ins, t))
  {
    if t > 0 {
      InOrderRun(c, run, ins, period, adv, fill, t - 1);
      InOrderStep(c, run, ins, period, adv, fill, t - 1);
    }
  }

  // --- The cut ------------------------------------------------------------------------------

  /** Rows from n on, up to the cut, are there; the row at the cut may be on its way; none after it is. */
  function Cut(c: Cfg, q: Regs, n: nat): nat
    requires Sized(q)
  {
    if !Holds(c, q, n + 1) then n + 1 else if !Holds(c, q, n + 2) then n + 2 else n + 3
  }

  /** Row a is neither there nor on its way. */
  predicate NotBegun(c: Cfg, q: Regs, a: nat)
    requires Sized(q)
  {
    !Holds(c, q, a) && !(q.filling && Targets(c, q, a))
  }

  lemma CutBelow(c: Cfg, q: Regs, n: nat, a: nat)
    requires Sized(q) && OnTime(c, q, n) && Ordered(c, q, n) && n <= a < Cut(c, q, n) && 1 <= a
    ensures Holds(c, q, a)
  {
  }

  lemma CutAbove(c: Cfg, q: Regs, n: nat, a: nat)
    requires Sized(q) && OnTime(c, q, n) && Ordered(c, q, n) && Cut(c, q, n) <= a <= n + 2
    requires a == Cut(c, q, n) ==> !q.filling
    ensures NotBegun(c, q, a)
  {
    NextTwo(c, n);
  }

  /** From cycle `from` to cycle t row a is at most two rows ahead, and not left behind. */
  predicate Window(ins: seq<In>, from: nat, t: nat, a: nat) {
    from < |ins| && from <= t <= |ins| && Rows(ins, t) <= a <= Rows(ins, from + 1) + 2
  }

  lemma WindowBack(ins: seq<In>, from: nat, t: nat, a: nat, s: nat)
    requires Window(ins, from, t, a) && from <= s <= t
    ensures Window(ins, from, s, a)
  {
    RowsMonotone(ins, s, t);
  }

  /** A row read above the cut is held there, and never left until it is read. */
  lemma HeldAbove(c: Cfg, q: Regs, ins: seq<In>, at: nat, t: nat)
    requires at <= t < |ins| && InOrder(c, q, Rows(ins, at)) && 1 <= Reading(ins, t) < Cut(c, q, Rows(ins, at))
    ensures Holds(c, q, Reading(ins, t)) && Window(ins, at, t, Reading(ins, t))
  {
    RowsMonotone(ins, at, t + 1);
    RowsMonotone(ins, t, t + 1);
    RowsMonotone(ins, at, at + 1);
    CutBelow(c, q, Rows(ins, at), Reading(ins, t));
  }
}
