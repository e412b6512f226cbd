/** What the third slot is for: the row two ahead is fetched as well, so a fill may take longer than a row if its
    neighbours make up for it. */
module ThirdSlot {
  import opened LineBuffer
  import opened ThreeSlots
  import opened Deadline
  import opened FillOrder

  // --- Two rows ahead -----------------------------------------------------------------------

  /** Nothing is being filled in cycle t or the one after. */
  predicate Rests(run: seq<State>, t: nat) { t + 1 < |run| && !run[t].q.filling && !run[t + 1].q.filling }

  /** The k-th row after a row, round the frame. */
  function RowsOn(c: Cfg, row: int, k: int): int { if row + k < c.rows then row + k else row + k - c.rows }

  /** AT REST, TWO ROWS ARE THERE. A buffer that fills nothing for two cycles has both rows after the
      serialiser's, in the two slots after its own. */
  lemma RestsWithTwoRows(c: Cfg, run: seq<State>, ins: seq<In>, t: nat)
    requires IsRun(c, run, ins) && Rests(run, t)
    ensures var q, row := run[t + 1].q, ins[t].base;
            && |q.ok| == |q.held| == 3 && 0 <= q.rdSlot < 3 && 0 <= row < c.rows
            && q.ok[(q.rdSlot + 1) % 3] && q.held[(q.rdSlot + 1) % 3] == RowsOn(c, row, 1)
            && q.ok[(q.rdSlot + 2) % 3] && q.held[(q.rdSlot + 2) % 3] == RowsOn(c, row, 2)
  {
    assert CycleAt(c, run, ins, t);
  }

  // --- How far the buffer is ahead ----------------------------------------------------------

  /** In row n the rows up to h are there, the one after h is being filled if any is, and no later one is there. */
  predicate Ahead(c: Cfg, q: Regs, n: nat, h: nat) {
    && Tracks(c, q, n) && n <= h <= n + 2
    && (forall r: nat | n <= r <= h && 1 <= r :: Holds(c, q, r))
    && (forall r: nat | h < r <= n + 2 :: !Holds(c, q, r))
    && (n == 0 ==> !q.ok[0])
    && (q.filling ==> h < n + 2 && Targets(c, q, h + 1))
  }

  lemma AheadMoves(c: Cfg, q: Regs, n: nat, h: nat)
    requires ValidCfg(c) && Ahead(c, q, n, h) && h >= n + 1
    ensures !Holds(c, q, n + 3) && SlotOf(n + 3) == SlotOf(n)
  {
    ThreeOn(c, n);
    if n >= 1 { assert Holds(c, q, n); }
  }

  lemma ThreeSlotsDiffer(n: nat)
    ensures SlotOf(n) != SlotOf(n + 1) && SlotOf(n + 1) != SlotOf(n + 2) && SlotOf(n + 2) != SlotOf(n)
    ensures SlotOf(n + 1) == Inc3(SlotOf(n)) && SlotOf(n + 2) == Inc3(SlotOf(n + 1))
  {
  }

  /** The slots alone: what the next registers hold, target and read. */
  predicate AheadOf(c: Cfg, q: Regs, m: nat, h: nat) {
    && Sized(q) && m <= h <= m + 2
    && (forall r: nat | m <= r <= h && 1 <= r :: Holds(c, q, r))
    && (forall r: nat | h < r <= m + 2 :: !Holds(c, q, r))
    && (m == 0 ==> !q.ok[0])
    && (q.filling ==> h < m + 2 && Targets(c, q, h + 1) && !q.ok[q.slot])
  }

  lemma Entering(c: Cfg, q: Regs, n: nat, h: nat, m: nat)
    requires ValidCfg(c) && Ahead(c, q, n, h) && (m == n || (m == n + 1 && h >= n + 1))
    ensures AheadOf(c, q, m, h)
  {
    if m == n + 1 { AheadMoves(c, q, n, h); }
  }

  lemma IdleGoesOn(c: Cfg, q: Regs, base: int, m: nat, h: nat)
    requires AheadOf(c, q, m, h) && !q.filling && base == RowOf(c, m) && SlotNow(q, base) == SlotOf(m)
    ensures var q' := IdleNext(c, q, base); AheadOf(c, q', m, h) && (q'.filling <==> h < m + 2)
  {
    NextTwo(c, m);
    ThreeSlotsDiffer(m);
    var q' := IdleNext(c, q, base);
    assert Holds(c, q, m + 1) <==> h >= m + 1;
    assert Holds(c, q, m + 2) <==> h >= m + 2;
    forall r: nat | m <= r <= h && 1 <= r
      ensures Holds(c, q', r)
    {
      assert Holds(c, q, r);
      assert r == m || r == m + 1 || r == m + 2;
    }
    forall r: nat | h < r <= m + 2
      ensures !Holds(c, q', r)
    {
      assert !Holds(c, q, r);
      assert r == m || r == m + 1 || r == m + 2;
    }
  }

  lemma StoreGoesOn(c: Cfg, q: Regs, m: nat, h: nat)
    requires AheadOf(c, q, m, h) && q.filling
    ensures AheadOf(c, Stored(q), m, h + 1)
  {
    NextTwo(c, m);
    ThreeSlotsDiffer(m);
    var q' := Stored(q);
    forall r: nat | m <= r <= h + 1 && 1 <= r
      ensures Holds(c, q', r)
    {
      if r <= h { assert Holds(c, q, r); }
    }
    forall r: nat | h + 1 < r <= m + 2
      ensures !Holds(c, q', r)
    {
      assert !Holds(c, q, r);
    }
  }

  lemma SameAhead(c: Cfg, q: Regs, q': Regs, m: nat, h: nat)
    requires AheadOf(c, q, m, h) && Sized(q') && q'.held == q.held && q'.ok == q.ok && q'.filling == q.filling
    requires q.filling ==> q'.slot == q.slot && q'.row == q.row
    ensures AheadOf(c, q', m, h)
  {
    forall r: nat | m <= r <= h && 1 <= r ensures Holds(c, q', r) { assert Holds(c, q, r); }
    forall r: nat | h < r <= m + 2 ensures !Holds(c, q', r) { assert !Holds(c, q, r); }
  }

  function B(b: bool): nat { if b then 1 else 0 }

  /** What a fill's cycle does to the slots. */
  lemma FillCycle(c: Cfg, s: State, i: In)
    requires Shaped(c, s, i) && s.q.filling
    ensures var q := QNext(c, s, i);
            && Sized(q) && (q.filling <==> !(i.valid && s.q.col == c.columns - 1))
            && (if q.filling then q.held == s.q.held && q.ok == s.q.ok && q.slot == s.q.slot && q.row == s.q.row
                else q.held == Stored(s.q).held && q.ok == Stored(s.q).ok)
  {
  }

  /** One cycle in which the serialiser is not late. */
  lemma AheadStep(c: Cfg, s: State, i: In, n: nat, h: nat)
    requires Shaped(c, s, i) && Ahead(c, s.q, n, h) && Turns(c, s.q, i.base)
    requires RowsAfter(s.q, i.base, n) != n ==> h >= n + 1
    ensures var q, m := QNext(c, s, i), RowsAfter(s.q, i.base, n);
            && Ahead(c, q, m, h + B(s.q.filling && !q.filling))
            && (!s.q.filling && h < m + 2 ==> q.filling)
  {
    var m, q := RowsAfter(s.q, i.base, n), QNext(c, s, i);
    TracksStep(c, s, i, n);
    Entering(c, s.q, n, h, m);
    if s.q.filling {
      FillCycle(c, s, i);
      if q.filling {
        SameAhead(c, s.q, q, m, h);
      } else {
        StoreGoesOn(c, s.q, m, h);
        SameAhead(c, Stored(s.q), q, m, h + 1);
      }
    } else {
      MovesTurnTheSlot(c, s.q, n, i.base);
      IdleGoesOn(c, s.q, i.base, m, h);
      SameAhead(c, IdleNext(c, s.q, i.base), q, m, h);
    }
  }

  // --- Fills together -----------------------------------------------------------------------

  /** A fill is done in cycle v. */
  predicate Ends(run: seq<State>, v: nat) { v + 1 < |run| && run[v].q.filling && !run[v + 1].q.filling }

  /** Fills done in the cycles from u to t. */
  function Done(run: seq<State>, u: nat, t: nat): nat
    requires u <= t
  {
    if t == u then 0 else Done(run, u, t - 1) + B(Ends(run, t - 1))
  }

  /** At rest in cycle u, and not again until cycle t. */
  predicate BusySinceRest(run: seq<State>, u: nat, t: nat) {
    Rests(run, u) && forall v: nat | u < v < t :: !Rests(run, v)
  }

  predicate FitAt(run: seq<State>, period: nat, adv: int, u: nat, t: nat, m: nat) {
    u <= t < |run| && BusySinceRest(run, u, t) && 16 * (t - u) >= period * (16 * (m + 1) - adv) ==> Done(run, u, t) >= m
  }

  /** CONSECUTIVE FILLS FIT TOGETHER: from a rest on, as long as the buffer is busy, m fills are done within m
      rows and the part of one more before its end is read ahead of. One fill alone may take almost two rows. */
  ghost predicate FitTogether(run: seq<State>, period: nat, adv: int) {
    forall u: nat, t: nat, m: nat :: FitAt(run, period, adv, u, t, m)
  }

  lemma OneMoreRow(k: nat, period: nat)
    ensures (k + 1) * period == k * period + period && period * (16 * (k + 1)) == 16 * (k * period) + 16 * period
  {
  }

  /** So many rows take so long. */
  lemma {:induction false} RowsTake(ins: seq<In>, period: nat, adv: int, u: nat, t: nat, k: nat)
    requires Paced(ins, period, adv) && u < t < |ins| && Rows(ins, t + 1) == Rows(ins, u + 1) + k + 1
    ensures t - u >= k * period + Since(ins, t) + 1
  {
    assert PacedAt(ins, period, adv, t);
    RowsMonotone(ins, u + 1, t);
    if t > u + 1 {
      if !Moved(ins, t) {
        RowsTake(ins, period, adv, u, t - 1, k);
      } else if k > 0 {
        RowsTake(ins, period, adv, u, t - 1, k - 1);
        OneMoreRow(k - 1, period);
      }
    }
  }

  /** As long as the serialiser is in row 0, its slot is empty. */
  lemma {:induction false} RowZero(c: Cfg, run: seq<State>, ins: seq<In>, t: nat)
    requires IsRun(c, run, ins) && t < |run| && Rows(ins, t) == 0
    ensures Sized(run[t].q) && !run[t].q.ok[0] && (run[t].q.filling ==> run[t].q.slot != 0)
  {
    RunTracks(c, run, ins, t);
    if t > 0 {
      RowZero(c, run, ins, t - 1);
      RunTracks(c, run, ins, t - 1);
      CycleOf(c, run, ins, t - 1);
      ZeroStays(c, run[t - 1], ins[t - 1]);
    }
  }

  lemma ZeroStays(c: Cfg, s: State, i: In)
    requires Shaped(c, s, i) && Tracks(c, s.q, 0) && i.base == s.q.prevRow
    requires !s.q.ok[0] && (s.q.filling ==> s.q.slot != 0)
    ensures var q := QNext(c, s, i); Sized(q) && !q.ok[0] && (q.filling ==> q.slot != 0)
  {
    SlotNotOffered(c, s, i);
  }

  lemma FullAtRest(c: Cfg, run: seq<State>, ins: seq<In>, u: nat)
    requires IsRun(c, run, ins) && Rests(run, u) && Rows(ins, u + 1) == 0
    ensures Ahead(c, run[u + 1].q, 0, 2)
  {
    RowZero(c, run, ins, u + 1);
    RunTracks(c, run, ins, u);
    RunTracks(c, run, ins, u + 1);
    CycleOf(c, run, ins, u);
    NextTwo(c, 0);
  }

  /** In time for the next row, counting from the last rest. */
  lemma OnTimeToMove(run: seq<State>, ins: seq<In>, period: nat, adv: int, u: nat, t: nat)
    requires Paced(ins, period, adv) && FitTogether(run, period, adv) && 0 <= adv && |run| == |ins| + 1
    requires u < t < |ins| && BusySinceRest(run, u, t) && Moved(ins, t)
    ensures Rows(ins, u + 1) + 2 + Done(run, u, t) >= Rows(ins, t) + 1
  {
    RowsMonotone(ins, u + 1, t);
    var k := Rows(ins, t) - Rows(ins, u + 1);
    if k >= 2 {
      assert PacedAt(ins, period, adv, t);
      if t - 1 > u { RowsTake(ins, period, adv, u, t - 1, k - 1); }
      OneMoreRow(k - 1, period);
      Enough(period, adv, k, t - u);
      assert FitAt(run, period, adv, u, t, k - 1);
    }
  }

  lemma Enough(period: nat, adv: int, k: nat, time: nat)
    requires 0 <= adv && time >= k * period
    ensures 16 * time >= period * (16 * k - adv)
  {
    assert period * (16 * k - adv) == 16 * (k * period) - period * adv;
    assert period * adv >= 0;
  }

  /** As far ahead at cycle t as the fills since the rest in cycle u say. */
  predicate AheadSince(c: Cfg, run: seq<State>, ins: seq<In>, u: nat, t: nat) {
    && u < t <= |ins| && |run| == |ins| + 1 && BusySinceRest(run, u, t)
    && Ahead(c, run[t].q, Rows(ins, t), Rows(ins, u + 1) + 2 + Done(run, u, t))
  }

  lemma AheadCycle(c: Cfg, run: seq<State>, ins: seq<In>, period: nat, adv: int, u: nat, t: nat)
    requires IsRun(c, run, ins) && Paced(ins, period, adv) && FitTogether(run, period, adv) && 0 <= adv
    requires t < |ins| && AheadSince(c, run, ins, u, t)
    ensures var h := Rows(ins, u + 1) + 2 + Done(run, u, t);
            && Ahead(c, run[t + 1].q, Rows(ins, t + 1), h + B(Ends(run, t)))
            && (!run[t].q.filling && h < Rows(ins, t + 1) + 2 ==> run[t + 1].q.filling)
  {
    RunTracks(c, run, ins, t);
    CycleOf(c, run, ins, t);
    if Moved(ins, t) { OnTimeToMove(run, ins, period, adv, u, t); }
    AheadStep(c, run[t], ins[t], Rows(ins, t), Rows(ins, u + 1) + 2 + Done(run, u, t));
  }

  /** FAR ENOUGH AHEAD: from a rest in row 0 on, the buffer is as many rows ahead as it has done fills since its
      last rest, and two. */
  lemma {:induction false} AheadRun(c: Cfg, run: seq<State>, ins: seq<In>, period: nat, adv: int, first: nat, t: nat) returns (u: nat)
    requires IsRun(c, run, ins) && Paced(ins, period, adv) && FitTogether(run, period, adv) && 0 <= adv
    requires Rests(run, first) && Rows(ins, first + 1) == 0 && first < t <= |ins|
    ensures first <= u && AheadSince(c, run, ins, u, t)
    decreases t
  {
    if t == first + 1 {
      FullAtRest(c, run, ins, first);
      u := first;
    } else {
      u := AheadRun(c, run, ins, period, adv, first, t - 1);
      AheadCycle(c, run, ins, period, adv, u, t - 1);
      if Rests(run, t - 1) { u := t - 1; }
    }
  }

  lemma AheadToRead(run: seq<State>, ins: seq<In>, period: nat, adv: int, u: nat, t: nat)
    requires Paced(ins, period, adv) && FitTogether(run, period, adv) && 0 <= adv && |run| == |ins| + 1
    requires u < t < |ins| && BusySinceRest(run, u, t) && ins[t].row != ins[t].base
    ensures Rows(ins, u + 1) + 2 + Done(run, u, t) >= Rows(ins, t + 1) + 1
  {
    RowsMonotone(ins, u + 1, t + 1);
    var k := Rows(ins, t + 1) - Rows(ins, u + 1);
    if k >= 2 {
      assert PacedAt(ins, period, adv, t);
      RowsTake(ins, period, adv, u, t, k - 1);
      Later(period, adv, k - 1, Since(ins, t), t - u);
      assert FitAt(run, period, adv, u, t, k - 1);
    }
  }

  lemma Later(period: nat, adv: int, k: nat, since: nat, time: nat)
    requires 16 * since >= period * (16 - adv) && time >= k * period + since
    ensures 16 * time >= period * (16 * (k + 1) - adv)
  {
    assert period * (16 * (k + 1) - adv) == 16 * (k * period) + period * (16 - adv);
  }

  /** THE DEADLINE OF THREE SLOTS. A buffer that has come to rest before row 0 is left, and whose fills fit
      together from rest to rest, is primed at every later read; though single fills take longer than a row. */
  lemma NoReadIsLate(c: Cfg, run: seq<State>, ins: seq<In>, period: nat, adv: int, first: nat, t: nat)
    requires IsRun(c, run, ins) && Paced(ins, period, adv) && FitTogether(run, period, adv) && 0 <= adv
    requires Rests(run, first) && Rows(ins, first + 1) == 0 && first < t < |ins| && Reading(ins, t) >= 1
    ensures Shaped(c, run[t], ins[t]) && Primed(run[t].q, ins[t])
  {
    var u := AheadRun(c, run, ins, period, adv, first, t);
    ReadsItsRow(c, run, ins, t);
    assert CycleAt(c, run, ins, t);
    if Moved(ins, t) { OnTimeToMove(run, ins, period, adv, u, t); }
    if ins[t].row != ins[t].base { AheadToRead(run, ins, period, adv, u, t); }
  }
}
