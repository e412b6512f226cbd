/** The first run after reset: its identity is committed only if its frame id is not zero. */
module FirstFrame {
  import opened Dma
  import opened Frames
  import opened WholeFrames
  import opened Display

  /** Packets whose header the engine has taken or will never take. */
  function Headers(e: Env, w: World): int
    requires InBounds(e, w) && (w.dma.fsm != Idle ==> w.pkt < |e.pkts|)
  {
    w.pkt + (if HeaderDone(e, w) then 1 else 0)
  }

  predicate ZeroAt(e: Env, n: int) { IsPixelPacket(e, n) && n < |e.frames| ==> e.frames[n].id == 0 }

  /** Every pixel packet among the first `n` belongs to a frame with id 0. */
  predicate AllZero(e: Env, n: int) { forall j | 0 <= j < n :: ZeroAt(e, j) }

  /** Nothing is committed as long as every frame id has been the reset value, 0. */
  predicate FirstRun(e: Env, w: World)
    requires InBounds(e, w) && (w.dma.fsm != Idle ==> w.pkt < |e.pkts|)
  {
    && (w.dma.live.total == 0 <==> AllZero(e, Headers(e, w)))
    && (w.dma.live.total == 0 ==> w.dma.live == NO_FRAME)
  }

  lemma AllZeroMore(e: Env, n: int)
    requires 0 <= n
    ensures AllZero(e, n + 1) <==> AllZero(e, n) && ZeroAt(e, n)
  {
  }

  lemma HeaderFirst(e: Env, w: World, c: Cycle)
    requires Sound(e) && Tracked(e, w) && FirstRun(e, w) && HeaderEnds(w.dma, Inputs(e, w, c))
    requires Tracked(e, Step(e, w, c))
    ensures FirstRun(e, Step(e, w, c))
  {
    HeaderEndIsChunk(e, w, c);
    AllZeroMore(e, w.pkt);
  }

  lemma OtherFirst(e: Env, w: World, c: Cycle)
    requires Sound(e) && Tracked(e, w) && FirstRun(e, w) && !HeaderEnds(w.dma, Inputs(e, w, c))
    requires Tracked(e, Step(e, w, c))
    ensures FirstRun(e, Step(e, w, c))
  {
    StepCases(e, w, c);
    LiveUnchanged(e, w, c);
    AllZeroMore(e, w.pkt);
  }

  lemma {:induction false} FirstRunAt(e: Env, run: seq<World>, sched: seq<Cycle>, t: int)
    requires Sound(e) && IsRun(e, run, sched) && 0 <= t < |run|
    ensures Tracked(e, run[t]) && FirstRun(e, run[t])
  {
    RunInv(e, run, sched, t);
    if t > 0 {
      FirstRunAt(e, run, sched, t - 1);
      assert CycleAt(e, run, sched, t - 1);
      if HeaderEnds(run[t - 1].dma, Inputs(e, run[t - 1], sched[t - 1])) {
        HeaderFirst(e, run[t - 1], sched[t - 1]);
      } else {
        OtherFirst(e, run[t - 1], sched[t - 1]);
      }
    }
  }

  /** WHEN THE SNAPSHOT IS RIGHT. At a frame change that ends a run of some frame, the published id, total
      and format are that frame's if and only if some pixel packet before it had a frame id other than 0. */
  lemma PublishedExactly(e: Env, run: seq<World>, sched: seq<Cycle>, t: int)
    requires Sound(e) && IsRun(e, run, sched) && 0 <= t < |sched| && InBounds(e, run[t]) && run[t].cur.Some?
    requires FrameChanges(run[t].dma, Inputs(e, run[t], sched[t]))
    ensures var f := run[t].cur.value;
            run[t + 1].dma.done.ident == Ident(f.id, f.total, f.fmt == Indexed) <==> !AllZero(e, run[t].pkt)
  {
    FirstRunAt(e, run, sched, t);
    assert CycleAt(e, run, sched, t);
  }

  /** A first run with frame id 0 that landed anything is published without total or format, and no flip
      shows it, complete or not: what it left in the write half is given to the next frame. */
  lemma FirstZeroRunIsLost(e: Env, run: seq<World>, sched: seq<Cycle>, t: int)
    requires Sound(e) && IsRun(e, run, sched) && 0 <= t < |sched| && InBounds(e, run[t])
    requires FrameChanges(run[t].dma, Inputs(e, run[t], sched[t]))
    requires AllZero(e, run[t].pkt) && LandedSince(run[t].log) != {}
    ensures run[t + 1].dma.done.ident == NO_FRAME && !Flips(e, run, sched, t)
    ensures forall u | 0 <= u < t :: !Flips(e, run, sched, u)
    ensures run[t + 1].disp == FB_BASE
  {
    FirstRunAt(e, run, sched, t);
    RunInv(e, run, sched, t);
    RunArrival(e, run, sched, t);
    assert CycleAt(e, run, sched, t);
    NoFlipBefore(e, run, sched, t);
    if !Flips(e, run, sched, t) { StillLow(e, run, sched, t + 1); }
  }

  lemma {:induction false} StillLow(e: Env, run: seq<World>, sched: seq<Cycle>, t: int)
    requires Sound(e) && IsRun(e, run, sched) && 0 <= t < |run|
    requires forall u | 0 <= u < t :: !Flips(e, run, sched, u)
    ensures run[t].disp == FB_BASE
  {
    if t > 0 {
      StillLow(e, run, sched, t - 1);
      FlipMovesBase(e, run, sched, t - 1);
    }
  }

  lemma NoFlipBefore(e: Env, run: seq<World>, sched: seq<Cycle>, t: int)
    requires Sound(e) && IsRun(e, run, sched) && 0 <= t < |run| && run[t].dma.live.total == 0
    ensures forall u | 0 <= u < t :: !Flips(e, run, sched, u)
  {
    forall u | 0 <= u < t
      ensures !Flips(e, run, sched, u)
    {
      if Flips(e, run, sched, u) { PromisedAfterChange(e, run, sched, u, t); }
    }
  }

  // --- It happens ---------------------------------------------------------------------------

  /** A frame of one indexed pixel, and its only packet. */
  function Dot(id: int): Frame { Frame(id, Indexed, 1, [7]) }

  function DotPacket(id: byte): seq<byte> { [BYTE_B, BYTE_I, id, 0, 0, 1, 1, 0, 1, 0, 7] }

  function TwoDots(): Env { Env([DotPacket(0), DotPacket(1)], [Dot(0), Dot(1)], 1) }

  /** What packet k of the two says. */
  predicate DotIn(e: Env, k: int) {
    && 0 <= k < |e.pkts| == |e.frames| && |e.pkts[k]| == 11 && e.frames[k] == Dot(k)
    && e.pkts[k][0] == BYTE_B && e.pkts[k][1] == BYTE_I && Le16(e.pkts[k][2], e.pkts[k][3]) == k && e.pkts[k][4] == 0
    && !Inert(e.pkts[k])
  }

  predicate TwoDotsIn(e: Env) { |e.pkts| == 2 && DotIn(e, 0) && DotIn(e, 1) }

  lemma DotIsChunk(id: byte)
    ensures !Inert(DotPacket(id)) && ValidFrame(Dot(id)) && IsChunk(DotPacket(id), Dot(id))
  {
    assert PixelOf(DotPacket(id), Indexed, 0) == 7;
  }

  lemma DotsAreSound()
    ensures Sound(TwoDots()) && TwoDotsIn(TwoDots())
  {
    DotIsChunk(0);
    DotIsChunk(1);
  }

  const GO: Cycle := Cycle(true, true, 0)

  /** n cycles with everything ready. */
  function Go(e: Env, w: World, n: nat): (w': World)
    requires Sound(e) && Inv(e, w)
    ensures Inv(e, w')
    decreases n
  {
    if n == 0 then w else StepInv(e, Go(e, w, n - 1), GO); Step(e, Go(e, w, n - 1), GO)
  }

  lemma InitialInv(e: Env)
    requires Sound(e)
    ensures Inv(e, Initial(map[]))
  {
  }

  /** The engine is `off` bytes into the header of packet `k`, with this record. */
  predicate InHeader(w: World, k: int, off: int, before: World) {
    && w.dma.fsm == Hdr && w.pkt == k && w.off == off && w.dma.gap == 0
    && w.dma.arrival == before.dma.arrival && w.dma.received == before.dma.received
    && w.dma.live == before.dma.live && w.cur == before.cur && w.log == before.log
  }

  lemma FieldStays(s: Regs, i: In)
    requires s.fsm == Hdr && i.valid && !i.last && 1 <= s.hdrIdx < 9 && s.gap == 0
    requires s.hdrIdx == 1 ==> i.data == BYTE_I
    ensures Next(s, i).fsm == Hdr && Next(s, i).gap == 0 && !HeaderEnds(s, i) && !Comb(s, i).landed && Ready(s, i)
  {
  }

  lemma ByteIsTaken(e: Env, w: World, k: int, off: int)
    requires TwoDotsIn(e) && InBounds(e, w) && 0 <= k <= 1 && 1 <= off < 9
    requires w.dma.fsm == Hdr && w.dma.hdrIdx == off && w.pkt == k && w.off == off && w.dma.gap == 0
    ensures var w' := Step(e, w, GO);
            && w'.dma.fsm == Hdr && w'.dma.gap == 0 && w'.pkt == k && w'.off == off + 1
            && !HeaderEnds(w.dma, Inputs(e, w, GO)) && !Comb(w.dma, Inputs(e, w, GO)).landed
            && w'.log == w.log
  {
    assert DotIn(e, k);
    FieldStays(w.dma, Inputs(e, w, GO));
    assert w.log + [] == w.log;
  }

  lemma IndexIsOffset(e: Env, w: World, k: int)
    requires Sound(e) && TwoDotsIn(e) && Inv(e, w) && 0 <= k <= 1 && w.dma.fsm == Hdr && w.pkt == k
    ensures InBounds(e, w) && w.dma.hdrIdx == w.off
  {
    assert HeaderRead(e.pkts[k], w.dma, w.off);
  }

  lemma HeaderByte(e: Env, w: World, k: int, off: int, before: World)
    requires Sound(e) && TwoDotsIn(e) && Inv(e, w) && 0 <= k <= 1 && 1 <= off < 9 && InHeader(w, k, off, before)
    ensures InHeader(Step(e, w, GO), k, off + 1, before)
  {
    IndexIsOffset(e, w, k);
    ByteIsTaken(e, w, k, off);
    RecordUnchanged(e, w, GO);
  }

  /** A run of the two packets in which everything is always ready. */
  ghost predicate ReadyRun(e: Env, run: seq<World>, sched: seq<Cycle>) {
    && Sound(e) && TwoDotsIn(e) && IsRun(e, run, sched) && run[0] == Initial(map[]) && |sched| == 21
    && forall t | 0 <= t < 21 :: sched[t] == GO
  }

  lemma {:induction false} HeaderBytes(e: Env, run: seq<World>, sched: seq<Cycle>, t: int, k: int, off: int, before: World)
    requires ReadyRun(e, run, sched) && 0 <= t && t + 9 - off <= 21 && 0 <= k <= 1 && 1 <= off <= 9
    requires InHeader(run[t], k, off, before)
    ensures InHeader(run[t + 9 - off], k, 9, before)
    decreases 9 - off
  {
    if off < 9 {
      RunInv(e, run, sched, t);
      assert CycleAt(e, run, sched, t) && sched[t] == GO;
      HeaderByte(e, run[t], k, off, before);
      HeaderBytes(e, run, sched, t + 1, k, off + 1, before);
    }
  }

  lemma FirstByte(e: Env, w: World, k: int)
    requires Sound(e) && TwoDotsIn(e) && Inv(e, w) && 0 <= k <= 1 && w.dma.fsm == Idle && w.pkt == k && w.dma.gap == 0
    ensures InHeader(Step(e, w, GO), k, 1, w)
  {
    assert DotIn(e, k);
    RecordUnchanged(e, w, GO);
  }

  lemma HeaderGoes(e: Env, run: seq<World>, sched: seq<Cycle>, t: int, k: int)
    requires ReadyRun(e, run, sched) && 0 <= t && t + 9 <= 21 && 0 <= k <= 1
    requires run[t].dma.fsm == Idle && run[t].pkt == k && run[t].dma.gap == 0
    ensures InHeader(run[t + 9], k, 9, run[t])
  {
    RunInv(e, run, sched, t);
    assert CycleAt(e, run, sched, t) && sched[t] == GO;
    FirstByte(e, run[t], k);
    HeaderBytes(e, run, sched, t + 1, k, 1, run[t]);
  }

  predicate DotHalfway(w: World) {
    && w.dma.fsm == Pix && w.pkt == 0 && w.off == 10 && w.dma.gap == 0 && w.log == [] && w.dma.live == NO_FRAME && w.cur == Some(Dot(0))
  }

  lemma DotHeaderEnds(e: Env, w: World, before: World)
    requires Sound(e) && TwoDotsIn(e) && Inv(e, w) && InHeader(w, 0, 9, before)
    requires before.dma.live == NO_FRAME && before.log == []
    ensures DotHalfway(Step(e, w, GO))
  {
    assert DotIn(e, 0);
    HeaderEndIsChunk(e, w, GO);
  }

  lemma DotIsIndexed(e: Env, w: World)
    requires Sound(e) && TwoDotsIn(e) && Inv(e, w) && DotHalfway(w)
    ensures InBounds(e, w) && w.dma.indexed && w.dma.chunkIndex == 0
  {
    assert DotIn(e, 0);
    assert PixelsRead(e.pkts[0], e.frames[0], w.dma, w.off, WriteBase(w.disp));
  }

  predicate DotLanded(w: World) {
    && w.dma.fsm == Idle && w.pkt == 1 && w.dma.gap == 0 && w.dma.live == NO_FRAME
    && w.log == [Landed(0, 0)] && w.cur == Some(Dot(0))
  }

  lemma LastByte(e: Env, w: World)
    requires TwoDotsIn(e) && InBounds(e, w) && DotHalfway(w) && w.dma.indexed
    ensures var i := Inputs(e, w, GO);
            && i.valid && i.last && i.throttle == 0 && i.writerReady && Ready(w.dma, i) && Progress(w.dma, i)
            && Comb(w.dma, i).landed && !HeaderEnds(w.dma, i)
  {
    assert DotIn(e, 0);
  }

  lemma DotPixelLands(e: Env, w: World)
    requires TwoDotsIn(e) && InBounds(e, w) && DotHalfway(w) && w.dma.indexed && w.dma.chunkIndex == 0
    ensures DotLanded(Step(e, w, GO))
  {
    LastByte(e, w);
    LandedRecord(e, w, GO);
    assert [] + [Landed(0, 0)] == [Landed(0, 0)];
  }

  lemma FirstDotLands(e: Env, run: seq<World>, sched: seq<Cycle>)
    requires ReadyRun(e, run, sched)
    ensures DotLanded(run[11])
  {
    HeaderGoes(e, run, sched, 0, 0);
    RunInv(e, run, sched, 9);
    assert CycleAt(e, run, sched, 9) && sched[9] == GO;
    DotHeaderEnds(e, run[9], run[0]);
    RunInv(e, run, sched, 10);
    assert CycleAt(e, run, sched, 10) && sched[10] == GO;
    DotIsIndexed(e, run[10]);
    DotPixelLands(e, run[10]);
  }

  lemma SecondDotArrives(e: Env, run: seq<World>, sched: seq<Cycle>)
    requires ReadyRun(e, run, sched)
    ensures InBounds(e, run[20]) && run[20].pkt == 1 && FrameChanges(run[20].dma, Inputs(e, run[20], GO))
    ensures run[20].log == [Landed(0, 0)] && run[20].cur == Some(Dot(0))
  {
    FirstDotLands(e, run, sched);
    HeaderGoes(e, run, sched, 11, 1);
    RunInv(e, run, sched, 20);
    ChangeIsDue(e, run[20], run[11]);
  }

  lemma ChangeIsDue(e: Env, w: World, before: World)
    requires Sound(e) && TwoDotsIn(e) && Inv(e, w) && InHeader(w, 1, 9, before) && before.dma.live == NO_FRAME
    ensures FrameChanges(w.dma, Inputs(e, w, GO))
  {
    assert DotIn(e, 1);
  }

  lemma SecondDotIsLate(e: Env, run: seq<World>, sched: seq<Cycle>)
    requires ReadyRun(e, run, sched)
    ensures InBounds(e, run[20]) && AllZero(e, run[20].pkt) && LandedSince(run[20].log) == {0}
  {
    SecondDotArrives(e, run, sched);
    LandedSinceStep([], Landed(0, 0));
    assert [] + [Landed(0, 0)] == [Landed(0, 0)];
    AllZeroMore(e, 0);
  }

  lemma ReadyRunExists() returns (run: seq<World>, sched: seq<Cycle>)
    ensures ReadyRun(TwoDots(), run, sched)
  {
    DotsAreSound();
    InitialInv(TwoDots());
    run := seq(22, t requires 0 <= t => Go(TwoDots(), Initial(map[]), t));
    sched := seq(21, t => GO);
    forall t | 0 <= t < 21
      ensures CycleAt(TwoDots(), run, sched, t)
    {
      var w := Go(TwoDots(), Initial(map[]), t);
      assert run[t] == w && run[t + 1] == Step(TwoDots(), w, GO);
    }
  }

  /** THE CASE. A whole first frame with id 0 and then a packet of another frame, nothing lost or delayed:
      at the frame change all its chunks have landed, no flip follows, and the snapshot names no frame. */
  lemma ZeroFrameIsLost() returns (run: seq<World>, sched: seq<Cycle>)
    ensures Sound(TwoDots()) && IsRun(TwoDots(), run, sched) && |sched| == 21 && InBounds(TwoDots(), run[20])
    ensures FrameChanges(run[20].dma, Inputs(TwoDots(), run[20], sched[20]))
    ensures LandedSince(run[20].log) == {0} && run[20].cur == Some(Dot(0)) && Dot(0).total == 1
    ensures !Flips(TwoDots(), run, sched, 20) && run[21].disp == FB_BASE && run[21].dma.done.ident == NO_FRAME
  {
    run, sched := ReadyRunExists();
    SecondDotArrives(TwoDots(), run, sched);
    SecondDotIsLate(TwoDots(), run, sched);
    assert sched[20] == GO;
    FirstZeroRunIsLost(TwoDots(), run, sched, 20);
  }
}
