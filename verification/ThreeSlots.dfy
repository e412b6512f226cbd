/** The three rotating slots under any fill timing: what the serialiser is told is there stays there,
    and a fast enough fill is never late. */
module ThreeSlots {
  import opened LineBuffer

  /** Rows counted from reset without wrapping: the row number and the slot of the a-th. */
  function RowOf(c: Cfg, a: nat): int { if a == 0 then 0 else NextRow(c, RowOf(c, a - 1)) }

  function SlotOf(a: nat): (s: int)
    ensures 0 <= s < 3
  {
    if a == 0 then 0 else Inc3(SlotOf(a - 1))
  }

  lemma {:induction false} RowsOnPanel(c: Cfg, a: nat)
    requires ValidCfg(c)
    ensures 0 <= RowOf(c, a) < c.rows
  {
    if a > 0 { RowsOnPanel(c, a - 1); }
  }

  // --- Serialiser ---------------------------------------------------------------------------

  function Base(ins: seq<In>, t: int): int
    requires t < |ins|
  {
    if t < 0 then 0 else ins[t].base
  }

  predicate Moved(ins: seq<In>, t: nat)
    requires t < |ins|
  {
    ins[t].base != Base(ins, t - 1)
  }

  /** Rows entered in the first `t` cycles. */
  function Rows(ins: seq<In>, t: nat): nat
    requires t <= |ins|
  {
    if t == 0 then 0 else Rows(ins, t - 1) + (if Moved(ins, t - 1) then 1 else 0)
  }

  /** The serialiser's row counter stays or goes to the next row, and it reads that row or the one after. */
  predicate Follows(c: Cfg, ins: seq<In>, t: nat)
    requires t < |ins|
  {
    && (Moved(ins, t) ==> ins[t].base == NextRow(c, Base(ins, t - 1)))
    && (ins[t].row == ins[t].base || ins[t].row == NextRow(c, ins[t].base))
  }

  /** The row read in cycle t, counted from reset. */
  function Reading(ins: seq<In>, t: nat): nat
    requires t < |ins|
  {
    Rows(ins, t + 1) + (if ins[t].row != ins[t].base then 1 else 0)
  }

  predicate CycleAt(c: Cfg, run: seq<State>, ins: seq<In>, t: nat)
    requires t < |ins| && |run| == |ins| + 1
  {
    Shaped(c, run[t], ins[t]) && Follows(c, ins, t) && run[t + 1] == Next(c, run[t], ins[t])
  }

  predicate IsRun(c: Cfg, run: seq<State>, ins: seq<In>) {
    && ValidCfg(c) && |run| == |ins| + 1 && run[0] == Reset(c)
    && forall t | 0 <= t < |ins| :: CycleAt(c, run, ins, t)
  }

  // --- Invariant ----------------------------------------------------------------------------

  predicate Sized(q: Regs) { |q.held| == |q.ok| == 3 && 0 <= q.slot < 3 && 0 <= q.rdSlot < 3 }

  predicate Holds(c: Cfg, q: Regs, a: nat)
    requires Sized(q)
  {
    SlotHolds(q, SlotOf(a), RowOf(c, a))
  }

  /** After `a` rows: the registers name row `a` and its slot, and a slot being filled is not offered. */
  predicate Tracks(c: Cfg, q: Regs, a: nat) {
    Sized(q) && q.prevRow == RowOf(c, a) && q.rdSlot == SlotOf(a) && (q.filling ==> !q.ok[q.slot])
  }

  lemma MovesTurnTheSlot(c: Cfg, q: Regs, a: nat, base: int)
    requires ValidCfg(c) && Tracks(c, q, a) && Turns(c, q, base)
    ensures var a' := RowsAfter(q, base, a);
            base == RowOf(c, a') && SlotNow(q, base) == SlotOf(a')
  {
  }

  predicate Turns(c: Cfg, q: Regs, base: int) { base == q.prevRow || base == NextRow(c, q.prevRow) }

  function RowsAfter(q: Regs, base: int, a: nat): nat { if base != q.prevRow then a + 1 else a }

  lemma SlotNotOffered(c: Cfg, s: State, i: In)
    requires Shaped(c, s, i) && Sized(s.q) && (s.q.filling ==> !s.q.ok[s.q.slot])
    ensures var q := QNext(c, s, i); Sized(q) && (q.filling ==> !q.ok[q.slot])
  {
    if !s.q.filling { assert Sized(IdleNext(c, s.q, i.base)); }
  }

  lemma TracksStep(c: Cfg, s: State, i: In, a: nat)
    requires Shaped(c, s, i) && Tracks(c, s.q, a) && Turns(c, s.q, i.base)
    ensures Tracks(c, QNext(c, s, i), RowsAfter(s.q, i.base, a))
  {
    SlotNotOffered(c, s, i);
    MovesTurnTheSlot(c, s.q, a, i.base);
  }

  /** One cycle of a run, as the step lemmas want it. */
  lemma CycleOf(c: Cfg, run: seq<State>, ins: seq<In>, t: nat)
    requires IsRun(c, run, ins) && t < |ins| && run[t].q.prevRow == Base(ins, t - 1)
    ensures Shaped(c, run[t], ins[t]) && Turns(c, run[t].q, ins[t].base) && run[t + 1] == Next(c, run[t], ins[t])
    ensures Rows(ins, t + 1) == RowsAfter(run[t].q, ins[t].base, Rows(ins, t))
    ensures ins[t].row == ins[t].base || ins[t].row == NextRow(c, ins[t].base)
  {
    assert CycleAt(c, run, ins, t);
  }

  lemma {:induction false} RunTracks(c: Cfg, run: seq<State>, ins: seq<In>, t: nat)
    requires IsRun(c, run, ins) && t < |run|
    ensures Tracks(c, run[t].q, Rows(ins, t)) && run[t].q.prevRow == Base(ins, t - 1)
  {
    if t > 0 {
      RunTracks(c, run, ins, t - 1);
      CycleOf(c, run, ins, t - 1);
      TracksStep(c, run[t - 1], ins[t - 1], Rows(ins, t - 1));
    }
  }

  // --- Safety -------------------------------------------------------------------------------

  /** NEVER READ WHILE WRITTEN. When the buffer says the row is there, the slot it reads holds that row
      and this cycle's store, if any, changes none of its columns. */
  lemma PrimedSlotIsNotWritten(c: Cfg, run: seq<State>, ins: seq<In>, t: nat, col: int)
    requires IsRun(c, run, ins) && t < |ins| && Shaped(c, run[t], ins[t]) && Primed(run[t].q, ins[t]) && 0 <= col < c.columns
    ensures var q, slot := run[t].q, ReadSlot(run[t].q, ins[t]);
            && slot == SlotOf(Reading(ins, t)) && q.ok[slot] && q.held[slot] == ins[t].row == RowOf(c, Reading(ins, t))
            && !(q.filling && q.slot == slot)
            && 0 <= Adr(c, slot, col) < |run[t].mem| == |run[t + 1].mem|
            && run[t + 1].mem[Adr(c, slot, col)] == run[t].mem[Adr(c, slot, col)]
  {
    ReadsItsRow(c, run, ins, t);
    assert CycleAt(c, run, ins, t);
    if run[t].q.filling { AdrDiffers(c, ReadSlot(run[t].q, ins[t]), run[t].q.slot, col, run[t].q.col); }
  }

  lemma ReadSlotTurns(c: Cfg, q: Regs, i: In, n: nat)
    requires ValidCfg(c) && Tracks(c, q, n) && Turns(c, q, i.base) && (i.row == i.base || i.row == NextRow(c, i.base))
    ensures var a := RowsAfter(q, i.base, n) + (if i.row != i.base then 1 else 0);
            ReadSlot(q, i) == SlotOf(a) && i.row == RowOf(c, a)
  {
    MovesTurnTheSlot(c, q, n, i.base);
    NextTwo(c, RowsAfter(q, i.base, n));
  }

  /** The slot offered is the slot of the row asked for, counted from reset. */
  lemma ReadsItsRow(c: Cfg, run: seq<State>, ins: seq<In>, t: nat)
    requires IsRun(c, run, ins) && t < |ins|
    ensures Tracks(c, run[t].q, Rows(ins, t))
    ensures ReadSlot(run[t].q, ins[t]) == SlotOf(Reading(ins, t)) && ins[t].row == RowOf(c, Reading(ins, t))
    ensures Primed(run[t].q, ins[t]) == Holds(c, run[t].q, Reading(ins, t))
  {
    RunTracks(c, run, ins, t);
    CycleOf(c, run, ins, t);
    ReadSlotTurns(c, run[t].q, ins[t], Rows(ins, t));
  }

  lemma AdrDiffers(c: Cfg, s: int, s': int, k: int, k': int)
    requires 0 <= s < 3 && 0 <= s' < 3 && s != s' && 0 <= k < c.columns && 0 <= k' < c.columns
    ensures Adr(c, s, k) != Adr(c, s', k') && 0 <= Adr(c, s, k) < 3 * c.columns
  {
  }

  lemma FillKeepsSlot(c: Cfg, q: Regs, ack: bool, valid: bool, a: nat)
    requires Sized(q) && q.filling && !q.ok[q.slot] && Holds(c, q, a)
    ensures var q' := StoreNext(c, RequestNext(c, q, ack), valid); Sized(q') && Holds(c, q', a)
  {
  }

  lemma IdleKeepsSlot(c: Cfg, q: Regs, base: int, n: nat, a: nat)
    requires Sized(q) && base == RowOf(c, n) && SlotNow(q, base) == SlotOf(n)
    requires n <= a <= n + 2 && Holds(c, q, a)
    ensures Sized(IdleNext(c, q, base)) && Holds(c, IdleNext(c, q, base), a)
  {
    NextTwo(c, n);
  }

  lemma NextTwo(c: Cfg, n: nat)
    ensures SlotOf(n + 1) == Inc3(SlotOf(n)) && RowOf(c, n + 1) == NextRow(c, RowOf(c, n))
    ensures SlotOf(n + 2) == Inc3(SlotOf(n + 1)) && RowOf(c, n + 2) == NextRow(c, RowOf(c, n + 1))
  {
  }

  /** A slot in the window of the current row and the two after it is not lost in a cycle. */
  lemma HoldsStep(c: Cfg, s: State, i: In, n: nat, a: nat)
    requires Shaped(c, s, i) && Tracks(c, s.q, n) && Turns(c, s.q, i.base)
    requires Holds(c, s.q, a) && RowsAfter(s.q, i.base, n) <= a <= RowsAfter(s.q, i.base, n) + 2
    ensures Sized(QNext(c, s, i)) && Holds(c, QNext(c, s, i), a)
  {
    if s.q.filling {
      FillKeepsSlot(c, s.q, i.reqAck, i.valid, a);
    } else {
      MovesTurnTheSlot(c, s.q, n, i.base);
      IdleKeepsSlot(c, s.q, i.base, RowsAfter(s.q, i.base, n), a);
    }
  }

  lemma HeldOneMore(c: Cfg, run: seq<State>, ins: seq<In>, u: nat, a: nat)
    requires IsRun(c, run, ins) && u < |ins| && Sized(run[u].q) && Holds(c, run[u].q, a)
    requires Rows(ins, u + 1) <= a <= Rows(ins, u + 1) + 2
    ensures Sized(run[u + 1].q) && Holds(c, run[u + 1].q, a)
  {
    RunTracks(c, run, ins, u);
    CycleOf(c, run, ins, u);
    HoldsStep(c, run[u], ins[u], Rows(ins, u), a);
  }

  /** ONCE THERE, IT STAYS. A row found in its slot, no more than two rows ahead, is found there until the
      serialiser has left it, across every wrap of the frame. */
  lemma {:induction false} HeldRowsStay(c: Cfg, run: seq<State>, ins: seq<In>, t: nat, u: nat, a: nat)
    requires IsRun(c, run, ins) && t <= u < |run| && Sized(run[t].q) && Holds(c, run[t].q, a)
    requires t < |ins| && Rows(ins, u) <= a <= Rows(ins, t + 1) + 2
    ensures Sized(run[u].q) && Holds(c, run[u].q, a)
    decreases u
  {
    if t < u {
      RowsMonotone(ins, t + 1, u);
      RowsMonotone(ins, u - 1, u);
      HeldRowsStay(c, run, ins, t, u - 1, a);
      HeldOneMore(c, run, ins, u - 1, a);
    }
  }

  lemma {:induction false} RowsMonotone(ins: seq<In>, t: nat, u: nat)
    requires t <= u <= |ins|
    ensures Rows(ins, t) <= Rows(ins, u)
  {
    if t < u { RowsMonotone(ins, t, u - 1); }
  }

  /** Being told a row is there once means being told so at every later read of the same row. */
  lemma PrimedStays(c: Cfg, run: seq<State>, ins: seq<In>, t: nat, u: nat)
    requires IsRun(c, run, ins) && t <= u < |ins| && Reading(ins, t) == Reading(ins, u)
    requires Shaped(c, run[t], ins[t]) && Primed(run[t].q, ins[t])
    ensures Sized(run[u].q) && Primed(run[u].q, ins[u])
  {
    ReadsItsRow(c, run, ins, t);
    ReadsItsRow(c, run, ins, u);
    RowsMonotone(ins, u, u + 1);
    HeldRowsStay(c, run, ins, t, u, Reading(ins, t));
  }
}
