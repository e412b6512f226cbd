/** A viewer never sees a mixed frame: the invariant of the closed system and its consequences. */
module WholeFrames {
  import opened Dma
  import opened Frames

  // --- The parser follows the packet --------------------------------------------------------

  predicate MagicRead(b: byte, s: Regs) {
    || (b == BYTE_M && !s.wide && !s.indexed)
    || (b == BYTE_W && s.wide && !s.indexed)
    || (b == BYTE_I && !s.wide && s.indexed)
  }

  /** The header bytes taken so far are in the registers. */
  predicate HeaderRead(p: seq<byte>, s: Regs, off: int) {
    && 1 <= off < |p|
    && s.hdrIdx == off && p[0] == BYTE_B
    && (off >= 2 ==> MagicRead(p[1], s) && off <= HdrLast(s.wide))
    && (off == 3 ==> s.frameId % 0x100 == p[2])
    && (off >= 4 ==> s.frameId == Le16(p[2], p[3]))
    && (off == 5 ==> s.chunkIndex % 0x100 == p[4])
    && (off >= 5 && !s.wide ==> s.chunkIndex == p[4])
    && (off >= 6 && s.wide ==> s.chunkIndex == Le16(p[4], p[5]))
    && (off >= 6 && !s.wide ==> s.totalHdr == p[5])
    && (off == 7 && s.wide ==> s.totalHdr % 0x100 == p[6])
    && (off >= 8 && s.wide ==> s.totalHdr == Le16(p[6], p[7]))
  }

  /** Pixels of the current chunk already handed to the memory. */
  function Emitted(f: Frame, s: Regs, base: int): int { s.pixAdr - base - Start(f.fmt, s.chunkIndex) }

  /** The payload bytes taken so far are in memory or in `r` and `g`. */
  predicate PixelsRead(p: seq<byte>, f: Frame, s: Regs, off: int, base: int) {
    && IsChunk(p, f)
    && s.indexed == (f.fmt == Indexed) && s.wide == (f.fmt == Wide)
    && s.chunkIndex == IndexOf(p, f.fmt)
    && HdrLen(f.fmt) <= off < |p|
    && var n := Emitted(f, s, base);
       && 0 <= n
       && (if f.fmt == Indexed then off == HdrLen(f.fmt) + n
           else
             && 0 <= s.sub <= 2
             && off == HdrLen(f.fmt) + 3 * n + s.sub
             && (s.sub >= 1 ==> s.r == p[off - s.sub])
             && (s.sub == 2 ==> s.g == p[off - 1]))
  }

  predicate Aligned(e: Env, w: World) {
    && InBounds(e, w)
    && (w.dma.fsm == Idle ==> w.off == 0)
    && (w.dma.fsm != Idle ==> w.pkt < |e.pkts|)
    && (w.dma.fsm == Hdr ==> HeaderRead(e.pkts[w.pkt], w.dma, w.off))
    && (w.dma.fsm == Pix ==> PixelsRead(e.pkts[w.pkt], e.frames[w.pkt], w.dma, w.off, WriteBase(w.disp)))
    && (w.dma.fsm == Drop ==> 1 <= w.off)
  }

  lemma LowThenHigh(v: int, low: byte, high: byte)
    ensures SetLow(v, low) % 0x100 == low
    ensures v % 0x100 == low ==> SetHigh(v, high) == Le16(low, high)
  {
  }

  lemma MagicKeepsHeader(p: seq<byte>, s: Regs)
    requires HeaderRead(p, s, 1) && 2 < |p| && s.fsm == Hdr
    ensures var n := FieldNext(s, p[1]).(hdrIdx := 2);
            n.fsm == s.fsm ==> HeaderRead(p, n, 2)
  {
  }

  lemma FieldKeepsHeader(p: seq<byte>, s: Regs, off: int)
    requires HeaderRead(p, s, off) && off + 1 < |p| && s.fsm == Hdr
    requires off == 1 || off < HdrLast(s.wide)
    ensures var n := FieldNext(s, p[off]).(hdrIdx := off + 1);
            n.fsm == s.fsm ==> HeaderRead(p, n, off + 1)
  {
    if off == 1 {
      MagicKeepsHeader(p, s);
    } else {
      LowThenHigh(s.frameId, p[2], p[off]);
      LowThenHigh(s.frameId, p[off], 0);
      if s.wide && off >= 4 { WideKeepsHeader(p, s, off); }
    }
  }

  lemma WideKeepsHeader(p: seq<byte>, s: Regs, off: int)
    requires HeaderRead(p, s, off) && off + 1 < |p| && s.fsm == Hdr && s.wide && 4 <= off < HdrLast(true)
    ensures HeaderRead(p, FieldNext(s, p[off]).(hdrIdx := off + 1), off + 1)
  {
    LowThenHigh(s.chunkIndex, p[4], p[off]);
    LowThenHigh(s.chunkIndex, p[off], 0);
    if off >= 6 {
      LowThenHigh(s.totalHdr, p[6], p[off]);
      LowThenHigh(s.totalHdr, p[off], 0);
    }
  }

  /** The byte that ends the header belongs to a chunk, and the registers then name that chunk. */
  lemma HeaderEndIsChunk(e: Env, w: World, c: Cycle)
    requires Sound(e) && Aligned(e, w)
    requires HeaderEnds(w.dma, Inputs(e, w, c))
    ensures IsChunk(e.pkts[w.pkt], e.frames[w.pkt]) && ValidFrame(e.frames[w.pkt])
    ensures w.off + 1 == HdrLen(e.frames[w.pkt].fmt) < |e.pkts[w.pkt]|
    ensures var f := e.frames[w.pkt];
            && w.dma.frameId == f.id && w.dma.totalHdr == f.total
            && w.dma.chunkIndex == IndexOf(e.pkts[w.pkt], f.fmt)
            && w.dma.indexed == (f.fmt == Indexed) && w.dma.wide == (f.fmt == Wide)
  {
    var p := e.pkts[w.pkt];
    assert w.off == HdrLast(w.dma.wide) < |p|;
    assert !Inert(p);
  }

  lemma HeaderEndAligned(e: Env, w: World, c: Cycle)
    requires Sound(e) && Aligned(e, w) && HeaderEnds(w.dma, Inputs(e, w, c))
    ensures Aligned(e, Step(e, w, c))
  {
    var w' := Step(e, w, c);
    HeaderEndIsChunk(e, w, c);
    var f := e.frames[w.pkt];
    PredictionIsExact(w.disp, None, SwapReq(w.dma, Inputs(e, w, c)));
    StartBounds(f, w.dma.chunkIndex);
    assert w'.pkt == w.pkt && w'.off == w.off + 1 && w'.dma.fsm == Pix;
    assert w'.dma.pixAdr == WriteBase(w'.disp) + Start(f.fmt, w.dma.chunkIndex);
  }

  lemma HeaderStepAligned(e: Env, w: World, c: Cycle)
    requires Sound(e) && Aligned(e, w) && w.dma.fsm == Hdr && !HeaderEnds(w.dma, Inputs(e, w, c))
    ensures Aligned(e, Step(e, w, c))
  {
    var i := Inputs(e, w, c);
    if i.valid && !i.last {
      FieldKeepsHeader(e.pkts[w.pkt], w.dma, w.off);
    }
  }

  lemma StartBounds(f: Frame, index: int)
    requires ValidFrame(f) && 0 <= index < f.total
    ensures 0 <= Start(f.fmt, index) < |f.pixels| <= 748032
    ensures Start(f.fmt, index) < End(f, index) <= |f.pixels|
  {
  }

  /** An accepted payload byte that is a pixel is the frame's own pixel, at its own place. */
  lemma PixelIsFrames(e: Env, w: World, c: Cycle)
    requires Sound(e) && Aligned(e, w) && w.dma.fsm == Pix && !Gathers(w.dma)
    requires Inputs(e, w, c).valid
    ensures var f := e.frames[w.pkt];
            var k := Start(f.fmt, w.dma.chunkIndex) + Emitted(f, w.dma, WriteBase(w.disp));
            && 0 <= k < End(f, w.dma.chunkIndex) <= |f.pixels|
            && w.dma.pixAdr == WriteBase(w.disp) + k
            && Word(w.dma, Inputs(e, w, c)) == f.pixels[k]
            && (Inputs(e, w, c).last <==> k + 1 == End(f, w.dma.chunkIndex))
  {
    var f := e.frames[w.pkt];
    var p := e.pkts[w.pkt];
    var n := Emitted(f, w.dma, WriteBase(w.disp));
    assert !Inert(p);
    StartBounds(f, w.dma.chunkIndex);
    assert HdrLen(f.fmt) + PayloadLen(f.fmt, n + 1) == w.off + 1;
    assert PixelOf(p, f.fmt, n) == f.pixels[Start(f.fmt, w.dma.chunkIndex) + n];
  }

  lemma GatherKeepsPixels(p: seq<byte>, f: Frame, s: Regs, i: In, off: int, base: int)
    requires PixelsRead(p, f, s, off, base) && s.fsm == Pix && Gathers(s)
    requires Progress(s, i) && i.data == p[off] && !i.last && off + 1 < |p|
    ensures PixelsRead(p, f, Next(s, i), off + 1, base)
  {
    assert Next(s, i).pixAdr == s.pixAdr;
  }

  lemma EmitKeepsPixels(p: seq<byte>, f: Frame, s: Regs, i: In, off: int, base: int)
    requires PixelsRead(p, f, s, off, base) && s.fsm == Pix && !Gathers(s)
    requires Progress(s, i) && !i.last && off + 1 < |p| && 0 <= s.pixAdr < W24 - 1
    ensures PixelsRead(p, f, Next(s, i), off + 1, base)
  {
    assert Next(s, i).pixAdr == s.pixAdr + 1;
  }

  lemma PixelGatherAligned(e: Env, w: World, c: Cycle)
    requires Sound(e) && Aligned(e, w) && w.dma.fsm == Pix && Gathers(w.dma)
    requires var i := Inputs(e, w, c); i.valid && !i.last
    ensures Aligned(e, Step(e, w, c))
  {
    var w' := Step(e, w, c);
    assert w'.pkt == w.pkt && w'.off == w.off + 1 && w'.disp == w.disp && w'.dma.fsm in {Pix, Drop};
    GatherKeepsPixels(e.pkts[w.pkt], e.frames[w.pkt], w.dma, Inputs(e, w, c), w.off, WriteBase(w.disp));
  }

  lemma PixelEmitAligned(e: Env, w: World, c: Cycle)
    requires Sound(e) && Aligned(e, w) && w.dma.fsm == Pix && !Gathers(w.dma)
    requires var i := Inputs(e, w, c); Progress(w.dma, i) && !i.last
    ensures Aligned(e, Step(e, w, c))
  {
    var w' := Step(e, w, c);
    assert w'.pkt == w.pkt && w'.off == w.off + 1 && w'.disp == w.disp && w'.dma.fsm in {Pix, Drop};
    PixelIsFrames(e, w, c);
    StartBounds(e.frames[w.pkt], w.dma.chunkIndex);
    EmitKeepsPixels(e.pkts[w.pkt], e.frames[w.pkt], w.dma, Inputs(e, w, c), w.off, WriteBase(w.disp));
  }

  lemma PixelWaitAligned(e: Env, w: World, c: Cycle)
    requires Sound(e) && Aligned(e, w) && w.dma.fsm == Pix
    requires var i := Inputs(e, w, c); !Progress(w.dma, i) || i.last
    ensures Aligned(e, Step(e, w, c))
  {
  }

  lemma StepAligned(e: Env, w: World, c: Cycle)
    requires Sound(e) && Aligned(e, w)
    ensures Aligned(e, Step(e, w, c))
  {
    var i := Inputs(e, w, c);
    match w.dma.fsm {
      case Idle =>
      case Hdr =>
        if HeaderEnds(w.dma, i) { HeaderEndAligned(e, w, c); } else { HeaderStepAligned(e, w, c); }
      case Pix =>
        if !Progress(w.dma, i) || i.last { PixelWaitAligned(e, w, c); }
        else if Gathers(w.dma) { PixelGatherAligned(e, w, c); }
        else { PixelEmitAligned(e, w, c); }
      case Drop =>
    }
  }

  // --- The bitmap, its counter and the frame they describe ----------------------------------

  function Indices(n: int): (r: set<int>)
    ensures forall x :: x in r <==> 0 <= x < n
  {
    if n <= 0 then {} else Indices(n - 1) + {n - 1}
  }

  lemma {:induction false} IndicesCount(n: int)
    requires 0 <= n
    ensures |Indices(n)| == n
  {
    if n > 0 {
      IndicesCount(n - 1);
    }
  }

  lemma {:induction false} SubsetCount<T>(a: set<T>, b: set<T>)
    requires a <= b
    ensures |a| <= |b|
    ensures |a| == |b| ==> a == b
  {
    if a != {} {
      var x :| x in a;
      SubsetCount(a - {x}, b - {x});
    }
  }

  /** The current packet's header has been taken, so its frame is the one being written. */
  predicate HeaderDone(e: Env, w: World)
    requires InBounds(e, w) && (w.dma.fsm != Idle ==> w.pkt < |e.pkts|)
  {
    w.dma.fsm == Pix || (w.dma.fsm == Drop && |e.pkts[w.pkt]| >= 2 && !Inert(e.pkts[w.pkt]))
  }

  predicate Describes(f: Frame, s: Regs) {
    && ValidFrame(f) && s.live.id == f.id
    && (s.live.total == 0 || (s.live.total == f.total && s.live.indexed == (f.fmt == Indexed)))
    && forall x | x in s.arrival :: 0 <= x < f.total
  }

  predicate Tracked(e: Env, w: World) {
    && Aligned(e, w)
    && (w.disp == FB_BASE || w.disp == FB_HIGH)
    && w.dma.received == |w.dma.arrival|
    && (w.cur.None? ==> w.dma.live == NO_FRAME && w.dma.arrival == {} && !HeaderDone(e, w))
    && (w.cur.Some? ==> Describes(w.cur.value, w.dma))
    && (HeaderDone(e, w) ==> w.cur == Some(e.frames[w.pkt]))
    && (!HeaderDone(e, w) && w.cur.Some? ==> 0 < w.pkt && w.cur.value == e.frames[w.pkt - 1])
  }

  lemma HeaderEndTracked(e: Env, w: World, c: Cycle)
    requires Sound(e) && Tracked(e, w) && HeaderEnds(w.dma, Inputs(e, w, c))
    ensures Tracked(e, Step(e, w, c))
  {
    StepAligned(e, w, c);
    HeaderEndIsChunk(e, w, c);
    SameFrameUnlessChanged(e, w, c);
    var i := Inputs(e, w, c);
    var w' := Step(e, w, c);
    assert !i.last && w'.pkt == w.pkt && w'.dma.fsm == Pix && w'.cur == Some(e.frames[w.pkt]);
    if FrameChanges(w.dma, i) {
      assert w'.dma.arrival == {} && w'.dma.live == Ident(w.dma.frameId, w.dma.totalHdr, w.dma.indexed);
    } else {
      assert w'.dma.arrival == w.dma.arrival && w'.dma.live == w.dma.live;
    }
  }

  lemma SameFrameUnlessChanged(e: Env, w: World, c: Cycle)
    requires Sound(e) && Tracked(e, w) && HeaderEnds(w.dma, Inputs(e, w, c))
    ensures !FrameChanges(w.dma, Inputs(e, w, c)) && w.cur.Some? ==> w.cur == Some(e.frames[w.pkt])
  {
    HeaderEndIsChunk(e, w, c);
    if 0 < w.pkt { assert GoesOnAt(e, w.pkt); }
  }

  lemma HeaderCutShort(e: Env, w: World, c: Cycle)
    requires Sound(e) && Aligned(e, w) && w.dma.fsm == Hdr
    requires var i := Inputs(e, w, c); i.valid && !HeaderEnds(w.dma, i)
    requires var i := Inputs(e, w, c); i.last || Step(e, w, c).dma.fsm == Drop
    ensures Inert(e.pkts[w.pkt])
  {
  }

  /** Cycles that take no whole header and land no chunk leave the frame's record alone. */
  lemma RecordUnchanged(e: Env, w: World, c: Cycle)
    requires InBounds(e, w) && !HeaderEnds(w.dma, Inputs(e, w, c)) && !Comb(w.dma, Inputs(e, w, c)).landed
    ensures var w' := Step(e, w, c);
            && w'.dma.arrival == w.dma.arrival && w'.dma.received == w.dma.received
            && w'.dma.live == w.dma.live && w'.disp == w.disp && w'.cur == w.cur && w'.shown == w.shown
            && w'.dma.done == w.dma.done
  {
  }

  lemma IdleStepTracked(e: Env, w: World, c: Cycle)
    requires Sound(e) && Tracked(e, w) && w.dma.fsm == Idle
    ensures Tracked(e, Step(e, w, c))
  {
    StepAligned(e, w, c);
    RecordUnchanged(e, w, c);
  }

  lemma HeaderStepTracked(e: Env, w: World, c: Cycle)
    requires Sound(e) && Tracked(e, w) && w.dma.fsm == Hdr && !HeaderEnds(w.dma, Inputs(e, w, c))
    ensures Tracked(e, Step(e, w, c))
  {
    StepAligned(e, w, c);
    RecordUnchanged(e, w, c);
    var i := Inputs(e, w, c);
    if 0 < w.pkt { assert GoesOnAt(e, w.pkt); }
    if i.valid && (i.last || Step(e, w, c).dma.fsm == Drop) {
      HeaderCutShort(e, w, c);
    }
  }

  lemma DropStepTracked(e: Env, w: World, c: Cycle)
    requires Sound(e) && Tracked(e, w)
    requires w.dma.fsm == Drop || (w.dma.fsm == Pix && !Comb(w.dma, Inputs(e, w, c)).landed)
    ensures Tracked(e, Step(e, w, c))
  {
    StepAligned(e, w, c);
    RecordUnchanged(e, w, c);
    if 0 < w.pkt { assert GoesOnAt(e, w.pkt); }
  }

  lemma ArrivalCount(s: Regs, f: Frame)
    requires Describes(f, s)
    ensures |s.arrival| <= f.total
    ensures |s.arrival| == f.total ==> s.arrival == Indices(f.total)
  {
    IndicesCount(f.total);
    SubsetCount(s.arrival, Indices(f.total));
  }

  lemma LandedRecord(e: Env, w: World, c: Cycle)
    requires InBounds(e, w) && Comb(w.dma, Inputs(e, w, c)).landed
    ensures var w' := Step(e, w, c);
            && w'.dma.live == w.dma.live && w'.dma.fsm == Idle && w'.pkt == w.pkt + 1
            && w'.cur == w.cur && w'.disp == w.disp && w'.dma.done == w.dma.done
            && w'.dma.arrival == SetArrival(w.dma).arrival && w'.dma.received == SetArrival(w.dma).received
  {
  }

  lemma OneMoreArrival(s: Regs, f: Frame)
    requires Describes(f, s) && s.received == |s.arrival| && 0 <= s.chunkIndex < f.total
    ensures SetArrival(s).arrival == s.arrival + {s.chunkIndex} && SetArrival(s).received == |s.arrival + {s.chunkIndex}|
  {
    ArrivalCount(s, f);
    if s.chunkIndex in s.arrival { assert s.arrival + {s.chunkIndex} == s.arrival; }
  }

  lemma ChunkInHand(e: Env, w: World)
    requires Sound(e) && Tracked(e, w) && w.dma.fsm == Pix
    ensures w.cur.Some? && Describes(w.cur.value, w.dma) && 0 <= w.dma.chunkIndex < w.cur.value.total
  {
  }

  lemma LandedArrival(e: Env, w: World, c: Cycle)
    requires Sound(e) && Tracked(e, w) && w.dma.fsm == Pix && Comb(w.dma, Inputs(e, w, c)).landed
    ensures w.cur.Some? && 0 <= w.dma.chunkIndex < w.cur.value.total
    ensures var s' := Step(e, w, c).dma;
            s'.arrival == w.dma.arrival + {w.dma.chunkIndex} && s'.received == |s'.arrival|
  {
    ChunkInHand(e, w);
    LandedRecord(e, w, c);
    OneMoreArrival(w.dma, w.cur.value);
  }

  lemma LandedTracked(e: Env, w: World, c: Cycle)
    requires Sound(e) && Tracked(e, w) && w.dma.fsm == Pix
    requires Comb(w.dma, Inputs(e, w, c)).landed
    ensures Tracked(e, Step(e, w, c))
    ensures Step(e, w, c).dma.arrival == w.dma.arrival + {w.dma.chunkIndex}
  {
    StepAligned(e, w, c);
    LandedRecord(e, w, c);
    LandedArrival(e, w, c);
  }

  lemma StepTracked(e: Env, w: World, c: Cycle)
    requires Sound(e) && Tracked(e, w)
    ensures Tracked(e, Step(e, w, c))
  {
    match w.dma.fsm {
      case Idle => IdleStepTracked(e, w, c);
      case Hdr =>
        if HeaderEnds(w.dma, Inputs(e, w, c)) { HeaderEndTracked(e, w, c); } else { HeaderStepTracked(e, w, c); }
      case Pix =>
        if Comb(w.dma, Inputs(e, w, c)).landed { LandedTracked(e, w, c); } else { DropStepTracked(e, w, c); }
      case Drop => DropStepTracked(e, w, c);
    }
  }

  // --- What the two halves hold -------------------------------------------------------------

  predicate At(mem: map<int, int>, base: int, f: Frame, k: int)
    requires 0 <= k < |f.pixels|
  {
    base + k in mem && mem[base + k] == f.pixels[k]
  }

  /** Pixels lo..hi of the frame are in memory at `base`, as far as the limit register lets any
      pixel through. */
  predicate Holds(mem: map<int, int>, base: int, f: Frame, lo: int, hi: int, limit: int) {
    forall k | 0 <= k < |f.pixels| && lo <= k < hi && k < limit :: At(mem, base, f, k)
  }

  predicate BackHolds(w: World, limit: int) {
    w.cur.Some? ==>
      forall x | x in w.dma.arrival ::
        Holds(w.mem, WriteBase(w.disp), w.cur.value, Start(w.cur.value.fmt, x), End(w.cur.value, x), limit)
  }

  predicate ChunkHolds(e: Env, w: World)
    requires InBounds(e, w)
  {
    w.dma.fsm == Pix && w.pkt < |e.pkts| ==>
      var f := e.frames[w.pkt];
      Holds(w.mem, WriteBase(w.disp), f, Start(f.fmt, w.dma.chunkIndex), w.dma.pixAdr - WriteBase(w.disp), e.limit)
  }

  predicate FrontHolds(w: World, limit: int) {
    w.shown.Some? ==> Holds(w.mem, w.disp, w.shown.value, 0, |w.shown.value.pixels|, limit)
  }

  predicate Inv(e: Env, w: World) {
    Tracked(e, w) && BackHolds(w, e.limit) && ChunkHolds(e, w) && FrontHolds(w, e.limit)
  }

  /** Every write lands in the half the display is not reading. */
  lemma WriteIsInBackHalf(e: Env, w: World, c: Cycle)
    requires Sound(e) && Tracked(e, w)
    ensures var o := Comb(w.dma, Inputs(e, w, c));
            o.write.Some? ==>
              && WriteBase(w.disp) <= o.write.value.adr < WriteBase(w.disp) + HALF_WORDS
              && !(w.disp <= o.write.value.adr < w.disp + HALF_WORDS)
  {
    var i := Inputs(e, w, c);
    if Comb(w.dma, i).write.Some? {
      PixelIsFrames(e, w, c);
    }
  }

  lemma WriteKeepsFrame(mem: map<int, int>, base: int, f: Frame, lo: int, hi: int, limit: int, k: int)
    requires Holds(mem, base, f, lo, hi, limit) && 0 <= k < |f.pixels|
    ensures Holds(mem[base + k := f.pixels[k]], base, f, lo, hi, limit)
    ensures At(mem[base + k := f.pixels[k]], base, f, k)
  {
    var mem' := mem[base + k := f.pixels[k]];
    forall j | 0 <= j < |f.pixels| && lo <= j < hi && j < limit ensures At(mem', base, f, j) {
      assert At(mem, base, f, j);
    }
  }

  lemma WriteKeepsOther(mem: map<int, int>, base: int, f: Frame, limit: int, adr: int, v: int)
    requires Holds(mem, base, f, 0, |f.pixels|, limit)
    requires !(base <= adr < base + limit)
    ensures Holds(mem[adr := v], base, f, 0, |f.pixels|, limit)
  {
    var mem' := mem[adr := v];
    forall j | 0 <= j < |f.pixels| && j < limit ensures At(mem', base, f, j) {
      assert At(mem, base, f, j);
    }
  }

  /** The memory after an emitted pixel. */
  lemma EmitWrites(e: Env, w: World, c: Cycle)
    requires Sound(e) && Tracked(e, w) && w.dma.fsm == Pix && !Gathers(w.dma)
    requires Progress(w.dma, Inputs(e, w, c))
    ensures var f := e.frames[w.pkt];
            var k := w.dma.pixAdr - WriteBase(w.disp);
            && 0 <= k < |f.pixels|
            && Step(e, w, c).mem == (if k < e.limit then w.mem[WriteBase(w.disp) + k := f.pixels[k]] else w.mem)
  {
    PixelIsFrames(e, w, c);
  }

  lemma EmitBack(e: Env, w: World, c: Cycle)
    requires Sound(e) && Inv(e, w) && w.dma.fsm == Pix && !Gathers(w.dma)
    requires Progress(w.dma, Inputs(e, w, c))
    ensures BackHolds(w.(mem := Step(e, w, c).mem), e.limit)
    ensures var f := e.frames[w.pkt];
            Holds(Step(e, w, c).mem, WriteBase(w.disp), f, Start(f.fmt, w.dma.chunkIndex),
                  w.dma.pixAdr + 1 - WriteBase(w.disp), e.limit)
  {
    var f := e.frames[w.pkt];
    var base := WriteBase(w.disp);
    EmitWrites(e, w, c);
    var k := w.dma.pixAdr - base;
    if k < e.limit {
      forall x | x in w.dma.arrival
        ensures Holds(w.mem[base + k := f.pixels[k]], base, f, Start(f.fmt, x), End(f, x), e.limit)
      {
        WriteKeepsFrame(w.mem, base, f, Start(f.fmt, x), End(f, x), e.limit, k);
      }
      WriteKeepsFrame(w.mem, base, f, Start(f.fmt, w.dma.chunkIndex), k, e.limit, k);
    }
  }

  lemma EmitFront(e: Env, w: World, c: Cycle)
    requires Sound(e) && Inv(e, w) && w.dma.fsm == Pix && !Gathers(w.dma)
    requires Progress(w.dma, Inputs(e, w, c))
    ensures FrontHolds(w.(mem := Step(e, w, c).mem), e.limit)
  {
    var f := e.frames[w.pkt];
    var base := WriteBase(w.disp);
    EmitWrites(e, w, c);
    var k := w.dma.pixAdr - base;
    if w.shown.Some? && k < e.limit {
      WriteKeepsOther(w.mem, w.disp, w.shown.value, e.limit, base + k, f.pixels[k]);
    }
  }

  /** What a cycle in PIX leaves alone, and where the address goes. */
  lemma PixelStepFrame(e: Env, w: World, c: Cycle)
    requires Sound(e) && Tracked(e, w) && w.dma.fsm == Pix
    ensures var w' := Step(e, w, c);
            && w'.disp == w.disp && w'.cur == w.cur && w'.shown == w.shown
            && (w'.dma.fsm == Pix ==> w'.pkt == w.pkt && w'.dma.chunkIndex == w.dma.chunkIndex)
  {
  }

  lemma AddressStays(e: Env, w: World, c: Cycle)
    requires InBounds(e, w) && w.dma.fsm == Pix && !(Progress(w.dma, Inputs(e, w, c)) && !Gathers(w.dma))
    ensures var w' := Step(e, w, c); w'.mem == w.mem && w'.dma.pixAdr == w.dma.pixAdr
  {
  }

  lemma AddressMoves(e: Env, w: World, c: Cycle)
    requires InBounds(e, w) && w.dma.fsm == Pix && Progress(w.dma, Inputs(e, w, c)) && !Gathers(w.dma)
    requires 0 <= w.dma.pixAdr < W24 - 1
    ensures Step(e, w, c).dma.pixAdr == w.dma.pixAdr + 1
  {
  }

  lemma PixelStepAddress(e: Env, w: World, c: Cycle)
    requires Sound(e) && Tracked(e, w) && w.dma.fsm == Pix
    ensures var w' := Step(e, w, c);
            if Progress(w.dma, Inputs(e, w, c)) && !Gathers(w.dma)
            then w'.dma.pixAdr == w.dma.pixAdr + 1
            else w'.mem == w.mem && w'.dma.pixAdr == w.dma.pixAdr
  {
    if Progress(w.dma, Inputs(e, w, c)) && !Gathers(w.dma) {
      PixelIsFrames(e, w, c);
      StartBounds(e.frames[w.pkt], w.dma.chunkIndex);
      AddressMoves(e, w, c);
    } else {
      AddressStays(e, w, c);
    }
  }

  lemma LandedBack(e: Env, w: World, c: Cycle)
    requires Sound(e) && Inv(e, w) && w.dma.fsm == Pix && Comb(w.dma, Inputs(e, w, c)).landed
    ensures BackHolds(Step(e, w, c), e.limit)
  {
    if Gathers(w.dma) { GatherIsNotLast(e, w, c); }
    PixelStepFrame(e, w, c);
    PixelStepAddress(e, w, c);
    LandedTracked(e, w, c);
    EmitBack(e, w, c);
    PixelIsFrames(e, w, c);
  }

  lemma PixelStepInv(e: Env, w: World, c: Cycle)
    requires Sound(e) && Inv(e, w) && w.dma.fsm == Pix
    ensures Inv(e, Step(e, w, c))
  {
    var i := Inputs(e, w, c);
    var w' := Step(e, w, c);
    StepTracked(e, w, c);
    PixelStepFrame(e, w, c);
    PixelStepAddress(e, w, c);
    if Progress(w.dma, i) && !Gathers(w.dma) {
      EmitFront(e, w, c);
      EmitBack(e, w, c);
    }
    if Comb(w.dma, i).landed {
      LandedBack(e, w, c);
      assert w'.dma.fsm == Idle;
    } else {
      assert w'.dma.arrival == w.dma.arrival;
    }
  }

  /** A chunk never ends in the middle of an RGB triple. */
  lemma GatherIsNotLast(e: Env, w: World, c: Cycle)
    requires Sound(e) && Aligned(e, w) && w.dma.fsm == Pix && Gathers(w.dma)
    requires Inputs(e, w, c).valid
    ensures !Inputs(e, w, c).last
  {
    var f := e.frames[w.pkt];
    var n := End(f, w.dma.chunkIndex) - Start(f.fmt, w.dma.chunkIndex);
    assert |e.pkts[w.pkt]| == HdrLen(f.fmt) + 3 * n;
  }

  function ChunkOf(f: Format, k: int): int {
    match f case Rgb => k / 487 case Wide => k / 486 case Indexed => k / 1461
  }

  /** Completion evidence: a count equal to the promised total means every chunk is there, and
      then the half holds the whole frame. */
  lemma CountIsEvidence(e: Env, w: World)
    requires Sound(e) && Inv(e, w) && w.cur.Some?
    requires w.dma.received == w.cur.value.total
    ensures w.dma.arrival == Indices(w.cur.value.total)
    ensures Holds(w.mem, WriteBase(w.disp), w.cur.value, 0, |w.cur.value.pixels|, e.limit)
  {
    var f := w.cur.value;
    ArrivalCount(w.dma, f);
    forall k | 0 <= k < |f.pixels| && k < e.limit
      ensures At(w.mem, WriteBase(w.disp), f, k)
    {
      var x := ChunkOf(f.fmt, k);
      assert Start(f.fmt, x) <= k < Start(f.fmt, x + 1);
      assert x in w.dma.arrival;
      assert Holds(w.mem, WriteBase(w.disp), f, Start(f.fmt, x), End(f, x), e.limit);
    }
  }

  lemma SwapStepInv(e: Env, w: World, c: Cycle)
    requires Sound(e) && Inv(e, w) && SwapReq(w.dma, Inputs(e, w, c))
    ensures Inv(e, Step(e, w, c))
  {
    StepTracked(e, w, c);
    var w' := Step(e, w, c);
    assert w'.dma.arrival == {} && w'.mem == w.mem && w'.disp == WriteBase(w.disp);
    HeaderEndIsChunk(e, w, c);
    StartBounds(e.frames[w.pkt], w.dma.chunkIndex);
    if w.cur.Some? && !NothingPromised(w.dma) {
      CountIsEvidence(e, w);
    }
  }

  lemma HeldStepInv(e: Env, w: World, c: Cycle)
    requires Sound(e) && Inv(e, w)
    requires HeaderEnds(w.dma, Inputs(e, w, c)) && !SwapReq(w.dma, Inputs(e, w, c))
    ensures Inv(e, Step(e, w, c))
  {
    var w' := Step(e, w, c);
    StepTracked(e, w, c);
    HeaderEndIsChunk(e, w, c);
    StartBounds(e.frames[w.pkt], w.dma.chunkIndex);
    SameFrameUnlessChanged(e, w, c);
    assert w'.mem == w.mem && w'.disp == w.disp && w'.shown == w.shown;
    assert w'.dma.pixAdr == WriteBase(w.disp) + Start(e.frames[w.pkt].fmt, w.dma.chunkIndex);
  }

  lemma QuietStepInv(e: Env, w: World, c: Cycle)
    requires Sound(e) && Inv(e, w) && w.dma.fsm != Pix && !HeaderEnds(w.dma, Inputs(e, w, c))
    ensures Inv(e, Step(e, w, c))
  {
    var w' := Step(e, w, c);
    StepTracked(e, w, c);
    RecordUnchanged(e, w, c);
    assert w'.mem == w.mem && w'.dma.fsm != Pix;
  }

  lemma StepInv(e: Env, w: World, c: Cycle)
    requires Sound(e) && Inv(e, w)
    ensures Inv(e, Step(e, w, c))
  {
    if w.dma.fsm == Pix {
      PixelStepInv(e, w, c);
    } else if SwapReq(w.dma, Inputs(e, w, c)) {
      SwapStepInv(e, w, c);
    } else if HeaderEnds(w.dma, Inputs(e, w, c)) {
      HeldStepInv(e, w, c);
    } else {
      QuietStepInv(e, w, c);
    }
  }
}
