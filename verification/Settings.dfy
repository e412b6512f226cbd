/** What the engine's settings do: enable, the throttle, and the two switches of the buffer flip. */
module Settings {
  import opened Dma
  import opened EngineLimits

  // --- Enable -------------------------------------------------------------------------------

  /** DISABLED, NOTHING HAPPENS: from a cycle between packets on, an engine that is not enabled stays there,
      drains what it is offered, and neither writes nor flips nor changes what it has recorded. */
  lemma {:induction false} DisabledRests(run: seq<Regs>, ins: seq<In>, s: int, t: int)
    requires IsEngineRun(run, ins) && 0 <= s <= t < |ins| && run[s].fsm == Idle
    requires forall j | s <= j <= t :: !ins[j].enable
    ensures run[t].fsm == Idle && run[t].arrival == run[s].arrival && run[t].live == run[s].live && run[t].done == run[s].done
    ensures var o := Comb(run[t], ins[t]); o.ready && o.write == None && !o.swapReq
  {
    if t > s {
      DisabledRests(run, ins, s, t - 1);
      assert run[t] == Next(run[t - 1], ins[t - 1]);
    }
  }

  // --- Throttle -----------------------------------------------------------------------------

  /** Cycle t takes a byte that makes a pixel. */
  predicate TakesPixel(run: seq<Regs>, ins: seq<In>, t: int)
    requires 0 <= t < |ins| <= |run|
  {
    run[t].fsm == Pix && (run[t].indexed || run[t].sub == 2) && ins[t].valid && Comb(run[t], ins[t]).ready
  }

  predicate NoPixel(run: seq<Regs>, ins: seq<In>, s: int, t: int)
    requires 0 <= s && t <= |ins| <= |run|
  {
    forall j | s <= j < t :: !TakesPixel(run, ins, j)
  }

  /** The gap left some cycles after a pixel. */
  lemma {:induction false} GapAfter(run: seq<Regs>, ins: seq<In>, s: int, t: int)
    requires IsEngineRun(run, ins) && 0 <= s < t < |run| && s < |ins| && TakesPixel(run, ins, s) && ins[s].throttle >= 0
    requires NoPixel(run, ins, s + 1, t)
    ensures run[t].gap == (if t - s <= ins[s].throttle then ins[s].throttle - (t - s - 1) else 0)
  {
    assert run[t] == Next(run[t - 1], ins[t - 1]);
    if t > s + 1 {
      GapAfter(run, ins, s, t - 1);
      assert !TakesPixel(run, ins, t - 1);
    }
  }

  lemma {:induction false} NextPixel(run: seq<Regs>, ins: seq<In>, s: int, t: int) returns (p: int)
    requires 0 <= s < t < |ins| <= |run| && TakesPixel(run, ins, t)
    ensures s < p <= t && TakesPixel(run, ins, p) && NoPixel(run, ins, s + 1, p)
  {
    if j :| s < j < t && TakesPixel(run, ins, j) { p := NextPixel(run, ins, s, j); } else { p := t; }
  }

  /** THE THROTTLE. After a pixel taken under a throttle of k, no pixel is taken in the k cycles that follow; in
      any cycle after those one is, if it is offered and the writer is ready. */
  lemma ThrottleSpaces(run: seq<Regs>, ins: seq<In>, s: int, t: int)
    requires IsEngineRun(run, ins) && 0 <= s < t < |ins| && TakesPixel(run, ins, s) && ins[s].throttle >= 0
    ensures TakesPixel(run, ins, t) ==> t - s > ins[s].throttle
    ensures NoPixel(run, ins, s + 1, t) && t - s > ins[s].throttle
              && run[t].fsm == Pix && (run[t].indexed || run[t].sub == 2) && ins[t].valid && ins[t].writerReady
            ==> TakesPixel(run, ins, t)
  {
    if TakesPixel(run, ins, t) {
      var p := NextPixel(run, ins, s, t);
      GapAfter(run, ins, s, p);
    }
    if NoPixel(run, ins, s + 1, t) { GapAfter(run, ins, s, t); }
  }

  // --- The flip -----------------------------------------------------------------------------

  /** A header with a new frame id is complete in cycle t. */
  predicate NewFrame(run: seq<Open>, ins: seq<In>, t: int)
    requires 0 <= t < |ins| <= |run|
  {
    var s := run[t].dma;
    s.fsm == Hdr && ins[t].valid && s.hdrIdx == (if s.wide then 11 else 9) && s.frameId != s.live.id
  }

  /** WHEN THE DISPLAY FLIPS, for any setting of the two switches: auto_swap on, a new frame, and either every
      promised chunk counted or swap_whole_only off. */
  lemma FlipsBySettings(run: seq<Open>, ins: seq<In>, t: int)
    requires IsOpenRun(run, ins) && 0 <= t < |ins|
    ensures run[t + 1].disp != run[t].disp
       <==> ins[t].autoSwap && NewFrame(run, ins, t) && (ins[t].wholeOnly ==> run[t].dma.received == run[t].dma.live.total)
  {
    RunAddress(run, ins, t);
    assert run[t + 1] == OpenNext(run[t], ins[t]);
  }

  /** With auto_swap off the display stays where it is. */
  lemma {:induction false} NeverFlips(run: seq<Open>, ins: seq<In>, t: int)
    requires IsOpenRun(run, ins) && 0 <= t < |run| && forall j | 0 <= j < t :: !ins[j].autoSwap
    ensures run[t].disp == FB_BASE
  {
    if t > 0 {
      NeverFlips(run, ins, t - 1);
      FlipsBySettings(run, ins, t - 1);
    }
  }
}
