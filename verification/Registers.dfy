/** Which registers a chip gets: the wrappers in order around the rotating slot, and every register row in its
    turn. */
module Registers {
  import opened Spwm
  import opened Waveform
  import opened ShiftChain
  import opened ChainRun
  import opened Drivers

  // --- One frame ----------------------------------------------------------------------------

  /** Slots before slot j that do not rotate. */
  function Fixed(rot: int, j: nat): nat { if j == 0 then 0 else Fixed(rot, j - 1) + (if j - 1 == rot then 0 else 1) }

  lemma {:induction false} FixedIs(rot: int, j: nat)
    ensures Fixed(rot, j) == (if 0 <= rot < j then j - 1 else j)
  {
    if j > 0 { FixedIs(rot, j - 1); }
  }

  /** WRAPPERS IN ORDER, NONE SKIPPED: the w-th slot that does not rotate comes before the next one, and there is
      one for every w. */
  lemma {:induction false} FixedInOrder(rot: int, slots: nat, w: nat) returns (j: nat)
    requires w < Fixed(rot, slots)
    ensures j < slots && j != rot && Fixed(rot, j) == w
    ensures forall k: nat | k < slots && k != rot && Fixed(rot, k) == w :: k == j
  {
    if w == Fixed(rot, slots - 1) {
      j := slots - 1;
    } else {
      j := FixedInOrder(rot, slots - 1, w);
    }
    forall k: nat | k < slots && k != rot && Fixed(rot, k) == w
      ensures k == j
    {
      FixedIs(rot, k);
      FixedIs(rot, j);
    }
  }

  /** Frame done in clock t: slot j of chip s holds row `row` of the table, on line n's colour lane. */
  predicate Carries(c: Cfg, n: nat, h: Chain, j: int, s: int, row: int) {
    && 0 <= j < |h.regs| && 0 <= s && 16 * s + 16 <= |h.regs[j]| && |c.table(row)| == 3
    && h.regs[j][16 * s..16 * s + 16] == Bits(c.table(row)[n % 3])
  }

  lemma RowOfSlot(g: Grammar, j: nat, reg: int)
    requires 0 <= g.rotSlot
    ensures TableRow(g, j, reg) == (if j == g.rotSlot then reg else 64 + Fixed(g.rotSlot, j))
  {
    FixedIs(g.rotSlot, j);
  }

  /** WHAT EACH SLOT CARRIES: the rotating slot the table row of the frame's register index, the others the rows
      from 64 on, in order; and there are sixteen slots for a count of zero. */
  lemma SlotsCarry(c: Cfg, n: nat, run: seq<Regs>, waves: seq<Wave>, chains: seq<Chain>, ins: seq<In>, t: nat, j: nat, s: int)
    requires Wired(c) && n < c.lines && IsRun(c, run, waves, ins) && IsChainRun(c, n, run, chains, ins)
    requires t < |ins| && FrameDone(run[t]) && 0 <= s < c.sections
    requires 0 <= c.grammar.rotSlot && j < (if c.grammar.slots == 0 then 16 else c.grammar.slots)
    ensures var h := chains[t + 1];
            && |h.regs| == (if c.grammar.slots == 0 then 16 else c.grammar.slots)
            && Carries(c, n, h, j, s, if j == c.grammar.rotSlot then h.reg else 64 + Fixed(c.grammar.rotSlot, j))
  {
    EveryChipIsConfigured(c, n, run, waves, chains, ins, t, j, s);
    RowOfSlot(c.grammar, j, chains[t + 1].reg);
  }

  // --- From frame to frame ------------------------------------------------------------------

  /** Between the end of one frame and the end of the next: not started yet, with the index the next frame will
      use, or under way with it. */
  predicate Turning(s: Regs, h: Chain, r: int) {
    if s.ctl.fsm == Hold then s.pre.regIndex == r else s.ctl.fsm != Idle && h.reg == r
  }

  lemma TurningStep(c: Cfg, n: nat, s: Regs, i: In, w: Wave, h: Chain, r: int)
    requires Wired(c) && FrameAt(c, s, w) && Turning(s, h, r) && !FrameDone(s)
    requires h.bits != [] && n < |s.ser.shifts| && |s.pre.blk.shift| == 3
    ensures Turning(Next(c, s, i), ChainNext(c, n, s, i.start, h), r)
  {
  }

  lemma {:induction false} TurningAt(c: Cfg, n: nat, run: seq<Regs>, waves: seq<Wave>, chains: seq<Chain>, ins: seq<In>, t: nat, u: nat)
    requires Wired(c) && n < c.lines && IsRun(c, run, waves, ins) && IsChainRun(c, n, run, chains, ins)
    requires t < u < |run| && FrameDone(run[t]) && forall v | t < v < u :: !FrameDone(run[v])
    ensures Turning(run[u], chains[u], NextReg(c.grammar, chains[t + 1].reg))
  {
    if u == t + 1 {
      RegsRunAt(c, n, run, waves, chains, ins, u);
      assert TickAt(c, run, waves, ins, t);
    } else {
      TurningAt(c, n, run, waves, chains, ins, t, u - 1);
      RunAt(c, run, waves, ins, u - 1);
      assert TickAt(c, run, waves, ins, u - 1) && ChainTick(c, n, run, chains, ins, u - 1) && !FrameDone(run[u - 1]);
      TurningStep(c, n, run[u - 1], ins[u - 1], waves[u - 1], chains[u - 1], NextReg(c.grammar, chains[t + 1].reg));
    }
  }

  /** The register index stays below the count. */
  predicate Indexed(c: Cfg, s: Regs, h: Chain) { 0 <= s.pre.regIndex < c.grammar.regCount && 0 <= h.reg < c.grammar.regCount }

  lemma {:induction false} IndexInRange(c: Cfg, n: nat, run: seq<Regs>, waves: seq<Wave>, chains: seq<Chain>, ins: seq<In>, t: nat)
    requires IsRun(c, run, waves, ins) && IsChainRun(c, n, run, chains, ins) && 1 <= c.grammar.regCount <= 64 && t < |run|
    ensures Indexed(c, run[t], chains[t])
  {
    if t > 0 {
      IndexInRange(c, n, run, waves, chains, ins, t - 1);
      assert TickAt(c, run, waves, ins, t - 1) && ChainTick(c, n, run, chains, ins, t - 1);
    }
  }

  /** ONE ROW ON EVERY FRAME: the next frame carries the next register row, after the last the first. */
  lemma NextFrameTurns(c: Cfg, n: nat, run: seq<Regs>, waves: seq<Wave>, chains: seq<Chain>, ins: seq<In>, t: nat, u: nat)
    requires Wired(c) && n < c.lines && IsRun(c, run, waves, ins) && IsChainRun(c, n, run, chains, ins)
    requires 1 <= c.grammar.regCount <= 64
    requires t < u < |ins| && FrameDone(run[t]) && FrameDone(run[u]) && forall v | t < v < u :: !FrameDone(run[v])
    ensures var r, r' := chains[t + 1].reg, chains[u + 1].reg;
            && 0 <= r < c.grammar.regCount
            && r' == (if r + 1 == c.grammar.regCount then 0 else r + 1)
  {
    TurningAt(c, n, run, waves, chains, ins, t, u);
    IndexInRange(c, n, run, waves, chains, ins, t + 1);
    assert ChainTick(c, n, run, chains, ins, u);
  }

  /** The ends of frames, one after another. */
  predicate EndAt(run: seq<Regs>, ends: seq<nat>, i: int)
    requires 0 <= i < |ends|
  {
    && ends[i] < |run| && FrameDone(run[ends[i]])
    && (i > 0 ==> ends[i - 1] < ends[i] && forall v | ends[i - 1] < v < ends[i] :: v < |run| && !FrameDone(run[v]))
  }

  predicate FrameEnds(run: seq<Regs>, ends: seq<nat>) { forall i | 0 <= i < |ends| :: EndAt(run, ends, i) }

  function Wrapped(k: int, r: int): int { if r < k then r else r - k }

  lemma {:induction false} RegOfFrame(c: Cfg, n: nat, run: seq<Regs>, waves: seq<Wave>, chains: seq<Chain>, ins: seq<In>, ends: seq<nat>, i: nat)
    requires Wired(c) && n < c.lines && IsRun(c, run, waves, ins) && IsChainRun(c, n, run, chains, ins)
    requires 1 <= c.grammar.regCount <= 64 && FrameEnds(run, ends) && i < |ends| && i < c.grammar.regCount
    requires forall k | 0 <= k < |ends| :: ends[k] < |ins|
    ensures 0 <= chains[ends[0] + 1].reg < c.grammar.regCount
    ensures chains[ends[i] + 1].reg == Wrapped(c.grammar.regCount, chains[ends[0] + 1].reg + i)
  {
    IndexInRange(c, n, run, waves, chains, ins, ends[0] + 1);
    if i > 0 {
      RegOfFrame(c, n, run, waves, chains, ins, ends, i - 1);
      assert EndAt(run, ends, i) && EndAt(run, ends, i - 1);
      NextFrameTurns(c, n, run, waves, chains, ins, ends[i - 1], ends[i]);
    }
  }

  /** EVERY REGISTER IN ITS TURN. Of as many consecutive frames as there are register rows, exactly one carries
      row x in its rotating slot. */
  lemma EveryRegisterIsSent(c: Cfg, n: nat, run: seq<Regs>, waves: seq<Wave>, chains: seq<Chain>, ins: seq<In>, ends: seq<nat>, x: nat)
      returns (i: nat)
    requires Wired(c) && n < c.lines && IsRun(c, run, waves, ins) && IsChainRun(c, n, run, chains, ins)
    requires 1 <= c.grammar.regCount <= 64 && FrameEnds(run, ends) && |ends| == c.grammar.regCount && x < c.grammar.regCount
    requires forall k | 0 <= k < |ends| :: ends[k] < |ins|
    ensures i < |ends| && chains[ends[i] + 1].reg == x
    ensures forall k | 0 <= k < |ends| && chains[ends[k] + 1].reg == x :: k == i
  {
    RegOfFrame(c, n, run, waves, chains, ins, ends, 0);
    var first := chains[ends[0] + 1].reg;
    i := if x >= first then x - first else x - first + c.grammar.regCount;
    forall k: nat | k < |ends|
      ensures chains[ends[k] + 1].reg == Wrapped(c.grammar.regCount, first + k)
    {
      RegOfFrame(c, n, run, waves, chains, ins, ends, k);
    }
  }
}
