/** When frames begin, and when the stage asks for pixels. */
module FrameStart {
  import opened Spwm
  import opened Waveform
  import opened FrameTime
  import FrameReads

  /** No start between ticks s and t. */
  predicate NoStart(ins: seq<In>, s: int, t: int)
    requires t <= |ins|
  {
    forall v | 0 <= s <= v < t :: !ins[v].start
  }

  /** A stage that waits for a start goes on waiting, and asks for nothing. */
  lemma {:induction false} Waits(c: Cfg, run: seq<Regs>, waves: seq<Wave>, ins: seq<In>, s: nat, t: nat)
    requires IsRun(c, run, waves, ins) && s <= t <= |ins| && NoStart(ins, s, t)
    requires run[s].ctl.fsm == Idle || run[s].ctl.fsm == Hold
    ensures run[t].ctl.fsm == run[s].ctl.fsm && !PixReq(run[t]) && !FrameDone(run[t])
  {
    if t > s {
      Waits(c, run, waves, ins, s, t - 1);
      assert TickAt(c, run, waves, ins, t - 1);
    }
  }

  /** A START IS ANSWERED. The first start after reset, or after a frame's end, has its frame done exactly one frame's
      time and a tick later, and none is done before. */
  lemma StartIsAnswered(c: Cfg, run: seq<Regs>, waves: seq<Wave>, ins: seq<In>, s: nat, t: nat, n: nat)
    requires Buildable(c) && IsRun(c, run, waves, ins) && s <= t < |ins| && t + 1 + n < |run| && n <= FrameTicks(c)
    requires s == 0 || FrameDone(run[s - 1])
    requires NoStart(ins, s, t) && ins[t].start
    ensures FrameDone(run[t + 1 + n]) <==> n == FrameTicks(c)
    ensures forall v: nat | s <= v <= t :: !FrameDone(run[v]) && !PixReq(run[v])
  {
    if s > 0 { assert TickAt(c, run, waves, ins, s - 1); }
    forall v: nat | s <= v <= t
      ensures !FrameDone(run[v]) && !PixReq(run[v])
    {
      Waits(c, run, waves, ins, s, v);
    }
    Waits(c, run, waves, ins, s, t);
    assert TickAt(c, run, waves, ins, t);
    FrameTakesExactly(c, run, waves, ins, t + 1, n);
  }

  /** A frame in progress, past its first tick: primed as long as it is in its prefix. */
  predicate UnderWay(s: Ctl, first: bool) {
    (s.fsm == PrefixWait && s.primed == !first) || (!first && s.fsm in {Phase, Pixels, Drain})
  }

  lemma {:induction false} StaysUnderWay(c: Cfg, run: seq<Regs>, waves: seq<Wave>, ins: seq<In>, t: nat, n: nat)
    requires Buildable(c) && IsRun(c, run, waves, ins) && 1 <= n <= FrameTicks(c) && t + n < |run|
    requires run[t].ctl.fsm == Prefix
    ensures UnderWay(run[t + n].ctl, n == 1)
  {
    assert TickAt(c, run, waves, ins, t + n - 1);
    if n > 1 {
      StaysUnderWay(c, run, waves, ins, t, n - 1);
      FrameTakesExactly(c, run, waves, ins, t, n - 1);
    }
  }

  /** ONE REQUEST AHEAD, then one with each pixel taken: that is all a frame asks for. */
  lemma RequestsAreOneAhead(c: Cfg, run: seq<Regs>, waves: seq<Wave>, ins: seq<In>, t: nat, n: nat)
    requires Buildable(c) && IsRun(c, run, waves, ins) && n <= FrameTicks(c) && t + n < |run|
    requires run[t].ctl.fsm == Prefix
    ensures PixReq(run[t + n]) <==> n == 1 || FrameReads.Takes(run[t + n])
  {
    if n > 0 { StaysUnderWay(c, run, waves, ins, t, n); }
  }
}
