/** What a viewer, a sender and the CPU may rely on, over whole runs of the closed system. */
module Display {
  import opened Dma
  import opened Frames
  import opened WholeFrames

  lemma {:induction false} RunInv(e: Env, run: seq<World>, sched: seq<Cycle>, t: int)
    requires Sound(e) && IsRun(e, run, sched) && 0 <= t < |run|
    ensures Inv(e, run[t])
  {
    if t > 0 {
      RunInv(e, run, sched, t - 1);
      assert CycleAt(e, run, sched, t - 1);
      StepInv(e, run[t - 1], sched[t - 1]);
    }
  }

  // --- Whole frames only --------------------------------------------------------------------

  /** The scan-out base changes exactly when the engine asks for a swap. */
  predicate Flips(e: Env, run: seq<World>, sched: seq<Cycle>, t: int)
    requires |run| == |sched| + 1 && 0 <= t < |sched|
  {
    InBounds(e, run[t]) && SwapReq(run[t].dma, Inputs(e, run[t], sched[t]))
  }

  lemma FlipMovesBase(e: Env, run: seq<World>, sched: seq<Cycle>, t: int)
    requires Sound(e) && IsRun(e, run, sched) && 0 <= t < |sched|
    ensures Flips(e, run, sched, t) <==> run[t + 1].disp != run[t].disp
  {
    RunInv(e, run, sched, t);
    assert CycleAt(e, run, sched, t);
  }

  /** The frame the viewer is shown after a flip is the one that was arriving before it. */
  lemma FlipShowsCurrent(e: Env, run: seq<World>, sched: seq<Cycle>, t: int)
    requires Sound(e) && IsRun(e, run, sched) && 0 <= t < |sched|
    requires Flips(e, run, sched, t) && !NothingPromised(run[t].dma)
    ensures 0 < run[t].pkt <= |e.frames|
    ensures run[t + 1].shown == Some(e.frames[run[t].pkt - 1])
    ensures var f := e.frames[run[t].pkt - 1];
            ValidFrame(f) && f.id == run[t].dma.live.id && f.total == run[t].dma.live.total == |run[t].dma.arrival|
  {
    RunInv(e, run, sched, t);
    assert CycleAt(e, run, sched, t);
  }

  lemma {:induction false} ShownStays(e: Env, run: seq<World>, sched: seq<Cycle>, t: int, u: int)
    requires Sound(e) && IsRun(e, run, sched) && 0 <= t < u <= |sched|
    requires forall v | t < v < u :: !Flips(e, run, sched, v)
    ensures run[u].shown == run[t + 1].shown
  {
    if u > t + 1 {
      ShownStays(e, run, sched, t, u - 1);
      assert CycleAt(e, run, sched, u - 1) && !Flips(e, run, sched, u - 1);
    }
  }

  /** WHOLE FRAMES ONLY. Under any loss, duplication, interleaving and stall abort, from a flip until
      the next one the displayed half holds, pixel for pixel, one complete frame: the one whose
      chunks were arriving when the flip was asked for. The only exception is a flip while both
      counters still read zero (`OnlyTheFirstFlipPromisesNothing`). */
  lemma WholeFramesOnly(e: Env, run: seq<World>, sched: seq<Cycle>, t: int, u: int)
    requires Sound(e) && IsRun(e, run, sched) && 0 <= t < u <= |sched|
    requires Flips(e, run, sched, t) && !NothingPromised(run[t].dma)
    requires forall v | t < v < u :: !Flips(e, run, sched, v)
    ensures 0 < run[t].pkt <= |e.frames|
    ensures var f := e.frames[run[t].pkt - 1];
            && ValidFrame(f)
            && Holds(run[u].mem, run[u].disp, f, 0, |f.pixels|, e.limit)
  {
    FlipShowsCurrent(e, run, sched, t);
    ShownStays(e, run, sched, t, u);
    RunInv(e, run, sched, u);
  }

  /** WHOLE RUNS ARE SHOWN. Once a total has been committed, a frame change flips exactly when every chunk
      of the run it ends has landed: a whole frame is never held back. */
  lemma FlipsExactlyWhenWhole(e: Env, run: seq<World>, sched: seq<Cycle>, t: int)
    requires Sound(e) && IsRun(e, run, sched) && 0 <= t < |sched| && InBounds(e, run[t])
    requires FrameChanges(run[t].dma, Inputs(e, run[t], sched[t])) && run[t].dma.live.total != 0
    ensures Flips(e, run, sched, t) <==> LandedSince(run[t].log) == Indices(run[t].dma.live.total)
  {
    RunInv(e, run, sched, t);
    RunArrival(e, run, sched, t);
    ArrivalCount(run[t].dma, run[t].cur.value);
    IndicesCount(run[t].dma.live.total);
  }

  lemma {:induction false} PromisedAfterChange(e: Env, run: seq<World>, sched: seq<Cycle>, t: int, u: int)
    requires Sound(e) && IsRun(e, run, sched) && 0 <= t < u <= |sched|
    requires InBounds(e, run[t]) && FrameChanges(run[t].dma, Inputs(e, run[t], sched[t]))
    ensures run[u].dma.live.total > 0
  {
    RunInv(e, run, sched, u - 1);
    assert CycleAt(e, run, sched, u - 1);
    var w := run[u - 1];
    var c := sched[u - 1];
    if FrameChanges(w.dma, Inputs(e, w, c)) {
      HeaderEndIsChunk(e, w, c);
    } else {
      PromisedAfterChange(e, run, sched, t, u - 1);
      LiveUnchanged(e, w, c);
    }
  }

  lemma LiveUnchanged(e: Env, w: World, c: Cycle)
    requires InBounds(e, w) && !FrameChanges(w.dma, Inputs(e, w, c))
    ensures Step(e, w, c).dma.live == w.dma.live && Step(e, w, c).dma.done == w.dma.done
  {
    var i := Inputs(e, w, c);
    if Comb(w.dma, i).landed {
      LandedRecord(e, w, c);
    } else if !HeaderEnds(w.dma, i) {
      RecordUnchanged(e, w, c);
    }
  }

  /** The exempt flip is the first frame change after reset, and no other. */
  lemma OnlyTheFirstFlipPromisesNothing(e: Env, run: seq<World>, sched: seq<Cycle>, t: int, u: int)
    requires Sound(e) && IsRun(e, run, sched) && 0 <= t < u < |sched|
    requires InBounds(e, run[t]) && FrameChanges(run[t].dma, Inputs(e, run[t], sched[t]))
    ensures !NothingPromised(run[u].dma)
  {
    PromisedAfterChange(e, run, sched, t, u);
  }

  /** WRITE/DISPLAY SEPARATION over every run. */
  lemma WritesAvoidTheDisplay(e: Env, run: seq<World>, sched: seq<Cycle>, t: int)
    requires Sound(e) && IsRun(e, run, sched) && 0 <= t < |sched|
    ensures forall a | run[t].disp <= a < run[t].disp + HALF_WORDS ::
              (a in run[t + 1].mem <==> a in run[t].mem)
              && (a in run[t].mem ==> run[t + 1].mem[a] == run[t].mem[a])
  {
    RunInv(e, run, sched, t);
    assert CycleAt(e, run, sched, t);
    WriteIsInBackHalf(e, run[t], sched[t]);
  }

  // --- The log: what landed, what was dropped -----------------------------------------------

  function LandedWith(before: set<int>, ev: Event): set<int> {
    match ev
    case NewRun(_) => {}
    case Landed(_, index) => before + {index}
    case Dropped(_) => before
  }

  /** Chunks landed since the run of the current frame id began: the bitmap's reference meaning. */
  function LandedSince(log: seq<Event>): set<int> {
    if log == [] then {} else LandedWith(LandedSince(log[..|log| - 1]), log[|log| - 1])
  }

  lemma LandedSinceStep(log: seq<Event>, ev: Event)
    ensures LandedSince(log + [ev]) == LandedWith(LandedSince(log), ev)
  {
    assert (log + [ev])[..|log|] == log;
  }

  lemma ArrivalRestarts(e: Env, w: World, c: Cycle)
    requires InBounds(e, w) && FrameChanges(w.dma, Inputs(e, w, c))
    ensures LandedSince(Step(e, w, c).log) == Step(e, w, c).dma.arrival == {}
  {
    LandedSinceStep(w.log, NewRun(w.pkt));
  }

  lemma ArrivalGrows(e: Env, w: World, c: Cycle)
    requires InBounds(e, w) && Comb(w.dma, Inputs(e, w, c)).landed && LandedSince(w.log) == w.dma.arrival
    ensures LandedSince(Step(e, w, c).log) == Step(e, w, c).dma.arrival
  {
    LandedRecord(e, w, c);
    LandedSinceStep(w.log, Landed(w.pkt, w.dma.chunkIndex % MASK_BITS));
  }

  lemma ArrivalWaits(e: Env, w: World, c: Cycle)
    requires InBounds(e, w) && LandedSince(w.log) == w.dma.arrival
    requires !FrameChanges(w.dma, Inputs(e, w, c)) && !Comb(w.dma, Inputs(e, w, c)).landed
    ensures LandedSince(Step(e, w, c).log) == Step(e, w, c).dma.arrival
  {
    LandedSinceStep(w.log, Dropped(w.pkt));
    assert w.log + [] == w.log;
    if !HeaderEnds(w.dma, Inputs(e, w, c)) { RecordUnchanged(e, w, c); }
  }

  lemma ArrivalStep(e: Env, w: World, c: Cycle)
    requires InBounds(e, w) && LandedSince(w.log) == w.dma.arrival
    ensures LandedSince(Step(e, w, c).log) == Step(e, w, c).dma.arrival
  {
    var i := Inputs(e, w, c);
    if FrameChanges(w.dma, i) { ArrivalRestarts(e, w, c); }
    else if Comb(w.dma, i).landed { ArrivalGrows(e, w, c); }
    else { ArrivalWaits(e, w, c); }
  }

  lemma {:induction false} RunArrival(e: Env, run: seq<World>, sched: seq<Cycle>, t: int)
    requires Sound(e) && IsRun(e, run, sched) && 0 <= t < |run|
    ensures LandedSince(run[t].log) == run[t].dma.arrival
  {
    if t > 0 {
      RunArrival(e, run, sched, t - 1);
      assert CycleAt(e, run, sched, t - 1);
      ArrivalStep(e, run[t - 1], sched[t - 1]);
    }
  }

  /** COMPLETION EVIDENCE. In every reachable state the counter is the number of distinct chunks
      landed since the run began, and a published snapshot is replaced only as a whole, by one whose bitmap
      describes the run that has just finished; so do its id, total and format once a total was committed
      (`FirstFrame.PublishedExactly` says when). */
  lemma CompletionEvidence(e: Env, run: seq<World>, sched: seq<Cycle>, t: int)
    requires Sound(e) && IsRun(e, run, sched) && 0 <= t < |sched|
    ensures run[t].dma.received == |LandedSince(run[t].log)|
    ensures run[t + 1].dma.done != run[t].dma.done ==>
              && run[t + 1].dma.done.bitmap == LandedSince(run[t].log)
              && run[t + 1].dma.done.seqNo == (run[t].dma.done.seqNo + 1) % W16
              && (run[t].cur.Some? && run[t].dma.live.total != 0 ==>
                    var f := run[t].cur.value;
                    run[t + 1].dma.done.ident == Ident(f.id, f.total, f.fmt == Indexed))
              && run[t + 1].log == run[t].log + [NewRun(run[t].pkt)]
  {
    RunInv(e, run, sched, t);
    RunArrival(e, run, sched, t);
    assert CycleAt(e, run, sched, t);
    var i := Inputs(e, run[t], sched[t]);
    if !FrameChanges(run[t].dma, i) {
      LiveUnchanged(e, run[t], sched[t]);
    }
  }

  // --- Every chunk packet lands or is dropped, never both -----------------------------------

  function PacketsLanded(log: seq<Event>): set<int> {
    if log == [] then {}
    else
      var ev := log[|log| - 1];
      PacketsLanded(log[..|log| - 1]) + (if ev.Landed? then {ev.pkt} else {})
  }

  function PacketsDropped(log: seq<Event>): set<int> {
    if log == [] then {}
    else
      var ev := log[|log| - 1];
      PacketsDropped(log[..|log| - 1]) + (if ev.Dropped? then {ev.pkt} else {})
  }

  lemma PacketsStep(log: seq<Event>, ev: Event)
    ensures PacketsLanded(log + [ev]) == PacketsLanded(log) + (if ev.Landed? then {ev.pkt} else {})
    ensures PacketsDropped(log + [ev]) == PacketsDropped(log) + (if ev.Dropped? then {ev.pkt} else {})
  {
    assert (log + [ev])[..|log|] == log;
  }

  predicate IsPixelPacket(e: Env, n: int) {
    0 <= n < |e.pkts| && |e.pkts[n]| >= 2 && !Inert(e.pkts[n])
  }

  function Index(e: Env, n: int): int {
    if IsPixelPacket(e, n) && n < |e.frames| && |e.pkts[n]| >= HdrLen(e.frames[n].fmt)
    then IndexOf(e.pkts[n], e.frames[n].fmt) else 0
  }

  predicate Outcomes(e: Env, w: World, landed: set<int>, dropped: set<int>) {
    && (forall n | n in landed :: n < w.pkt)
    && (forall n | n in dropped :: n < w.pkt || (n == w.pkt && w.dma.fsm == Drop))
    && (w.dma.fsm == Drop && IsPixelPacket(e, w.pkt) ==> w.pkt in dropped)
    && landed !! dropped
    && (forall n | 0 <= n < w.pkt && IsPixelPacket(e, n) :: n in landed || n in dropped)
    && (forall n | w.runStart <= n < w.pkt && IsPixelPacket(e, n) :: n in dropped || Index(e, n) in w.dma.arrival)
    && w.runStart <= w.pkt
  }

  /** The cycle that completes a header with a new frame id. */
  predicate Starts(w: World, w': World) {
    && w'.pkt == w.pkt && w.dma.fsm == Hdr && w'.dma.fsm == Pix && w'.runStart == w.pkt
    && w'.log == w.log + [NewRun(w.pkt)]
  }

  /** The cycle that takes a chunk's last byte. */
  predicate Lands(e: Env, w: World, w': World) {
    && w'.pkt == w.pkt + 1 && w'.dma.fsm == Idle && w'.runStart == w.runStart
    && w'.dma.arrival == w.dma.arrival + {Index(e, w.pkt)}
    && w'.log == w.log + [Landed(w.pkt, Index(e, w.pkt))]
    && w.dma.fsm == Pix
  }

  /** The cycle in which the watchdog gives a payload up. */
  predicate Abandons(w: World, w': World) {
    && w'.pkt == w.pkt && w.dma.fsm == Pix && w'.dma.fsm == Drop && w'.runStart == w.runStart
    && w'.dma.arrival == w.dma.arrival && w'.log == w.log + [Dropped(w.pkt)]
  }

  /** Any other cycle. */
  predicate Waits(e: Env, w: World, w': World) {
    && w'.dma.arrival == w.dma.arrival && w'.runStart == w.runStart && w'.log == w.log
    && (w'.pkt == w.pkt || (w'.pkt == w.pkt + 1 && w'.dma.fsm == Idle))
    && (w'.pkt == w.pkt + 1 || w'.dma.fsm == Drop ==> w.dma.fsm == Drop || !IsPixelPacket(e, w.pkt))
    && (w.dma.fsm == Drop && w'.pkt == w.pkt ==> w'.dma.fsm == Drop)
  }

  lemma HeaderCases(e: Env, w: World, c: Cycle)
    requires Sound(e) && Tracked(e, w) && w.dma.fsm == Hdr
    ensures var w' := Step(e, w, c); Starts(w, w') || Waits(e, w, w')
  {
    var i := Inputs(e, w, c);
    var w' := Step(e, w, c);
    if HeaderEnds(w.dma, i) {
      HeaderEndIsChunk(e, w, c);
      assert if FrameChanges(w.dma, i) then Starts(w, w') else Waits(e, w, w');
    } else {
      RecordUnchanged(e, w, c);
      if i.valid && (i.last || w'.dma.fsm == Drop) {
        HeaderCutShort(e, w, c);
      }
      assert Waits(e, w, w');
    }
  }

  lemma IndexInHand(e: Env, w: World)
    requires Sound(e) && Tracked(e, w) && w.dma.fsm == Pix
    ensures w.dma.chunkIndex == Index(e, w.pkt) && 0 <= w.dma.chunkIndex < MASK_BITS
  {
  }

  lemma LandingCases(e: Env, w: World, c: Cycle)
    requires Sound(e) && Tracked(e, w) && Comb(w.dma, Inputs(e, w, c)).landed
    ensures Lands(e, w, Step(e, w, c))
  {
    LandedRecord(e, w, c);
    LandedArrival(e, w, c);
    IndexInHand(e, w);
  }

  lemma OtherCases(e: Env, w: World, c: Cycle)
    requires Sound(e) && Tracked(e, w) && w.dma.fsm != Hdr && !Comb(w.dma, Inputs(e, w, c)).landed
    ensures var w' := Step(e, w, c); Abandons(w, w') || Waits(e, w, w')
  {
    RecordUnchanged(e, w, c);
  }

  lemma StepCases(e: Env, w: World, c: Cycle)
    requires Sound(e) && Tracked(e, w)
    ensures var w' := Step(e, w, c);
            Starts(w, w') || Lands(e, w, w') || Abandons(w, w') || Waits(e, w, w')
  {
    if w.dma.fsm == Hdr { HeaderCases(e, w, c); }
    else if Comb(w.dma, Inputs(e, w, c)).landed { LandingCases(e, w, c); }
    else { OtherCases(e, w, c); }
  }

  predicate Accounted(e: Env, w: World) { Outcomes(e, w, PacketsLanded(w.log), PacketsDropped(w.log)) }

  lemma StartsAccounted(e: Env, w: World, w': World)
    requires Accounted(e, w) && Starts(w, w')
    ensures Accounted(e, w')
  {
    PacketsStep(w.log, NewRun(w.pkt));
    assert PacketsLanded(w'.log) == PacketsLanded(w.log) && PacketsDropped(w'.log) == PacketsDropped(w.log);
  }

  lemma LandsAccounted(e: Env, w: World, w': World)
    requires Accounted(e, w) && Lands(e, w, w')
    ensures Accounted(e, w')
  {
    PacketsStep(w.log, Landed(w.pkt, Index(e, w.pkt)));
    assert PacketsDropped(w'.log) == PacketsDropped(w.log);
  }

  lemma AbandonsAccounted(e: Env, w: World, w': World)
    requires Accounted(e, w) && Abandons(w, w')
    ensures Accounted(e, w')
  {
    PacketsStep(w.log, Dropped(w.pkt));
    assert PacketsLanded(w'.log) == PacketsLanded(w.log);
  }

  lemma AccountedStep(e: Env, w: World, w': World)
    requires Accounted(e, w)
    requires Starts(w, w') || Lands(e, w, w') || Abandons(w, w') || Waits(e, w, w')
    ensures Accounted(e, w')
  {
    if Starts(w, w') {
      StartsAccounted(e, w, w');
    } else if Lands(e, w, w') {
      LandsAccounted(e, w, w');
    } else if Abandons(w, w') {
      AbandonsAccounted(e, w, w');
    } else {
      assert w'.log == w.log;
    }
  }

  lemma {:induction false} RunAccounted(e: Env, run: seq<World>, sched: seq<Cycle>, t: int)
    requires Sound(e) && IsRun(e, run, sched) && 0 <= t < |run|
    ensures Accounted(e, run[t])
  {
    if t > 0 {
      RunAccounted(e, run, sched, t - 1);
      RunInv(e, run, sched, t - 1);
      assert CycleAt(e, run, sched, t - 1);
      StepCases(e, run[t - 1], sched[t - 1]);
      AccountedStep(e, run[t - 1], run[t]);
    }
  }

  /** Every finished pixel packet either landed or was abandoned by the watchdog, and an abandoned
      payload never sets its arrival bit. */
  lemma LandedOrDropped(e: Env, run: seq<World>, sched: seq<Cycle>, t: int, n: int)
    requires Sound(e) && IsRun(e, run, sched) && 0 <= t < |run|
    requires 0 <= n < run[t].pkt && IsPixelPacket(e, n)
    ensures n in PacketsLanded(run[t].log) <==> n !in PacketsDropped(run[t].log)
  {
    RunAccounted(e, run, sched, t);
  }
}
