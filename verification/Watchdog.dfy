/** When the engine gives a payload up: after 8192 cycles without a byte, no sooner and no later. */
module Watchdog {
  import opened Dma
  import opened Frames
  import opened Display
  import opened EngineLimits

  /** Cycle j is in the payload, and no byte is taken. */
  predicate Starves(run: seq<Regs>, ins: seq<In>, j: int)
    requires 0 <= j < |ins| <= |run|
  {
    run[j].fsm == Pix && !(ins[j].valid && Comb(run[j], ins[j]).ready)
  }

  /** Cycle j takes the payload's last byte. */
  predicate TakesLast(run: seq<Regs>, ins: seq<In>, j: int)
    requires 0 <= j < |ins| <= |run|
  {
    run[j].fsm == Pix && ins[j].valid && Comb(run[j], ins[j]).ready && ins[j].last
  }

  predicate StarvesSince(run: seq<Regs>, ins: seq<In>, from: int, t: int)
    requires 0 <= from && t <= |ins| <= |run|
  {
    forall j | from <= j < t :: Starves(run, ins, j)
  }

  /** While a payload is being taken the counter is the number of cycles since the last byte. */
  lemma {:induction false} StallIs(run: seq<Regs>, ins: seq<In>, t: int)
    requires IsEngineRun(run, ins) && 0 <= t < |run|
    ensures 0 <= run[t].stall <= 8192
    ensures run[t].fsm == Pix ==> run[t].stall <= t && StarvesSince(run, ins, t - run[t].stall, t)
  {
    if t > 0 {
      StallIs(run, ins, t - 1);
      assert run[t] == Next(run[t - 1], ins[t - 1]);
      if run[t].fsm == Pix && run[t].stall > 0 {
        assert run[t - 1].fsm == Pix && Starves(run, ins, t - 1);
        assert run[t].stall == run[t - 1].stall + 1;
      }
    }
  }

  lemma {:induction false} StallReaches(run: seq<Regs>, ins: seq<In>, t: int, n: nat)
    requires IsEngineRun(run, ins) && n <= t < |run| && n <= 8192 && StarvesSince(run, ins, t - n, t)
    ensures run[t].stall >= n
  {
    StallIs(run, ins, t);
    if n > 0 {
      StallReaches(run, ins, t - 1, n - 1);
      StallIs(run, ins, t - 1);
      assert Starves(run, ins, t - 1) && run[t] == Next(run[t - 1], ins[t - 1]);
    }
  }

  lemma AbandonStep(s: Regs, i: In)
    requires s.fsm == Pix
    ensures Next(s, i).fsm == Drop <==> s.stall == 8192 && !(i.valid && Comb(s, i).ready && i.last)
  {
  }

  /** GIVEN UP EXACTLY WHEN STARVED. A payload in progress in cycle t is abandoned in it if and only if no byte
      was taken in any of the 8192 cycles before, all of them in the payload, and cycle t does not take its last. */
  lemma AbandonedExactly(run: seq<Regs>, ins: seq<In>, t: int)
    requires IsEngineRun(run, ins) && 0 <= t < |ins| && run[t].fsm == Pix
    ensures run[t + 1].fsm == Drop
       <==> t >= 8192 && StarvesSince(run, ins, t - 8192, t) && !TakesLast(run, ins, t)
  {
    StallIs(run, ins, t);
    AbandonStep(run[t], ins[t]);
    assert run[t + 1] == Next(run[t], ins[t]);
    if t >= 8192 && StarvesSince(run, ins, t - 8192, t) { StallReaches(run, ins, t, 8192); }
  }

  /** Some byte is taken in the 8192 cycles from v. */
  predicate FedWithin(run: seq<Regs>, ins: seq<In>, v: int)
    requires 0 <= v && v + 8192 <= |ins| <= |run|
  {
    exists j | v <= j < v + 8192 :: !Starves(run, ins, j)
  }

  /** A payload that begins in cycle s and has no gap of 8192 cycles before cycle u, nor its last byte. */
  ghost predicate WellFed(run: seq<Regs>, ins: seq<In>, s: int, u: int)
    requires IsEngineRun(run, ins)
  {
    && 0 < s <= u <= |ins| && run[s - 1].fsm == Hdr && run[s].fsm == Pix
    && (forall v | s <= v <= u - 8192 :: FedWithin(run, ins, v))
    && (forall v | s <= v < u :: !TakesLast(run, ins, v))
  }

  lemma StaysOrEnds(s: Regs, i: In)
    requires s.fsm == Pix && Next(s, i).fsm != Drop
    ensures if i.valid && Comb(s, i).ready && i.last
            then Next(s, i).fsm == Idle && Next(s, i).arrival == s.arrival + {s.chunkIndex % 512}
            else Next(s, i).fsm == Pix
    ensures Next(s, i).chunkIndex == s.chunkIndex
  {
  }

  lemma {:induction false} StaysInPayload(run: seq<Regs>, ins: seq<In>, s: int, u: int)
    requires IsEngineRun(run, ins) && WellFed(run, ins, s, u)
    ensures run[u].fsm == Pix && run[u].chunkIndex == run[s].chunkIndex
  {
    if u > s {
      StaysInPayload(run, ins, s, u - 1);
      NotStarved(run, ins, s, u - 1);
      assert run[u] == Next(run[u - 1], ins[u - 1]) && !TakesLast(run, ins, u - 1);
      StaysOrEnds(run[u - 1], ins[u - 1]);
    }
  }

  lemma NotStarved(run: seq<Regs>, ins: seq<In>, s: int, t: int)
    requires IsEngineRun(run, ins) && WellFed(run, ins, s, t) && t < |ins| && run[t].fsm == Pix
    ensures run[t + 1].fsm != Drop
  {
    AbandonedExactly(run, ins, t);
    if t >= 8192 && StarvesSince(run, ins, t - 8192, t) {
      if t - 8192 < s {
        assert Starves(run, ins, s - 1);
      } else {
        assert FedWithin(run, ins, t - 8192);
      }
    }
  }

  /** A PAYLOAD THAT KEEPS COMING LANDS, however slowly: with no gap of 8192 cycles, its last byte sets the
      arrival bit of its chunk. */
  lemma KeptUpPayloadLands(run: seq<Regs>, ins: seq<In>, s: int, u: int)
    requires IsEngineRun(run, ins) && WellFed(run, ins, s, u) && u < |ins|
    requires ins[u].valid && Comb(run[u], ins[u]).ready && ins[u].last
    ensures Comb(run[u], ins[u]).landed && run[u + 1].fsm == Idle
    ensures run[u + 1].arrival == run[u].arrival + {run[s].chunkIndex % 512}
  {
    StaysInPayload(run, ins, s, u);
    NotStarved(run, ins, s, u);
    assert run[u + 1] == Next(run[u], ins[u]);
    StaysOrEnds(run[u], ins[u]);
  }

  /** A payload is reported as landed exactly when the engine leaves it for the next packet; then its chunk is in
      the arrival set. */
  lemma LandedIsDone(run: seq<Regs>, ins: seq<In>, t: int)
    requires IsEngineRun(run, ins) && 0 <= t < |ins|
    ensures Comb(run[t], ins[t]).landed <==> run[t].fsm == Pix && run[t + 1].fsm == Idle
    ensures Comb(run[t], ins[t]).landed ==> run[t].chunkIndex % 512 in run[t + 1].arrival
  {
    assert run[t + 1] == Next(run[t], ins[t]);
  }

  // --- In the closed system -----------------------------------------------------------------

  function EngineOf(run: seq<World>): seq<Regs> { seq(|run|, t requires 0 <= t < |run| => run[t].dma) }

  function InputAt(e: Env, w: World, c: Cycle): In {
    if InBounds(e, w) then Inputs(e, w, c) else In(false, 0, false, false, false, 0, 0, false, false, 0)
  }

  function InputsOf(e: Env, run: seq<World>, sched: seq<Cycle>): seq<In>
    requires |run| == |sched| + 1
  {
    seq(|sched|, t requires 0 <= t < |sched| => InputAt(e, run[t], sched[t]))
  }

  lemma EngineRuns(e: Env, run: seq<World>, sched: seq<Cycle>)
    requires IsRun(e, run, sched)
    ensures IsEngineRun(EngineOf(run), InputsOf(e, run, sched))
  {
    forall t | 0 <= t < |sched|
      ensures EngineOf(run)[t + 1] == Next(EngineOf(run)[t], InputsOf(e, run, sched)[t])
    {
      assert CycleAt(e, run, sched, t);
    }
  }

  /** WHAT IS DROPPED. A run records a packet as dropped in cycle t exactly when its payload is starved there. */
  lemma DroppedExactly(e: Env, run: seq<World>, sched: seq<Cycle>, t: int)
    requires IsRun(e, run, sched) && 0 <= t < |sched| && run[t].dma.fsm == Pix
    ensures var regs, ins := EngineOf(run), InputsOf(e, run, sched);
            run[t + 1].log == run[t].log + [Dropped(run[t].pkt)]
            <==> t >= 8192 && StarvesSince(regs, ins, t - 8192, t) && !TakesLast(regs, ins, t)
  {
    EngineRuns(e, run, sched);
    AbandonedExactly(EngineOf(run), InputsOf(e, run, sched), t);
    assert CycleAt(e, run, sched, t);
    var i := Inputs(e, run[t], sched[t]);
    assert run[t + 1].log == run[t].log + Events(run[t], i);
    assert Events(run[t], i) == [Dropped(run[t].pkt)] <==> Next(run[t].dma, i).fsm == Drop;
    assert run[t + 1].log[|run[t].log|..] == Events(run[t], i);
  }
}
