/** What the engine guarantees whatever bytes it is fed: where its writes go, and how long it can
    hold the stream. Nothing is assumed about the packets here. */
module EngineLimits {
  import opened Dma

  /** The engine and the swap register, with the number of pixels taken from the current payload. */
  datatype Open = Open(dma: Regs, disp: int, count: int)

  const OPEN_RESET: Open := Open(RESET, FB_BASE, 0)

  function Seen(o: Open, i: In): In { i.(displayBase := o.disp) }

  function OpenNext(o: Open, i: In): Open {
    var seen := Seen(o, i);
    Open(Next(o.dma, seen),
         SwapNext(o.disp, None, SwapReq(o.dma, seen) && i.autoSwap),
         if HeaderEnds(o.dma, seen) then 0
         else if Progress(o.dma, seen) && !Gathers(o.dma) then o.count + 1
         else o.count)
  }

  predicate IsOpenRun(run: seq<Open>, ins: seq<In>) {
    && |run| == |ins| + 1
    && run[0] == OPEN_RESET
    && forall t | 0 <= t < |ins| :: run[t + 1] == OpenNext(run[t], ins[t])
  }

  /** Where pixel `k` of a payload goes: the address register is 24 bits wide. */
  function PixelAddress(base: int, offset: int, k: int): int { (base + offset + k) % W24 }

  predicate AddressOk(o: Open) {
    && (o.disp == FB_BASE || o.disp == FB_HIGH)
    && 0 <= o.count
    && (o.dma.fsm == Pix ==> o.dma.pixAdr == PixelAddress(WriteBase(o.disp), ChunkPixels(o.dma), o.count))
  }

  lemma WrapStep(a: int)
    ensures (a % W24 + 1) % W24 == (a + 1) % W24
  {
  }

  lemma HeaderAddress(o: Open, i: In)
    requires AddressOk(o) && HeaderEnds(o.dma, Seen(o, i))
    ensures AddressOk(OpenNext(o, i))
  {
    var seen := Seen(o, i);
    PredictionIsExact(o.disp, None, SwapReq(o.dma, seen) && i.autoSwap);
    assert ChunkPixels(OpenNext(o, i).dma) == ChunkPixels(o.dma);
  }

  lemma PixelsAddress(o: Open, i: In)
    requires AddressOk(o) && o.dma.fsm == Pix
    ensures AddressOk(OpenNext(o, i))
  {
    assert ChunkPixels(OpenNext(o, i).dma) == ChunkPixels(o.dma);
    WrapStep(WriteBase(o.disp) + ChunkPixels(o.dma) + o.count);
  }

  lemma OtherAddress(o: Open, i: In)
    requires AddressOk(o) && o.dma.fsm != Pix && !HeaderEnds(o.dma, Seen(o, i))
    ensures AddressOk(OpenNext(o, i))
  {
    assert OpenNext(o, i).dma.fsm != Pix;
  }

  lemma {:induction false} RunAddress(run: seq<Open>, ins: seq<In>, t: int)
    requires IsOpenRun(run, ins) && 0 <= t < |run|
    ensures AddressOk(run[t])
  {
    if t > 0 {
      RunAddress(run, ins, t - 1);
      if run[t - 1].dma.fsm == Pix {
        PixelsAddress(run[t - 1], ins[t - 1]);
      } else if HeaderEnds(run[t - 1].dma, Seen(run[t - 1], ins[t - 1])) {
        HeaderAddress(run[t - 1], ins[t - 1]);
      } else {
        OtherAddress(run[t - 1], ins[t - 1]);
      }
    }
  }

  /** Every accepted write of any run is pixel `count` of the chunk its header named, in the half not
      on display as long as the sum fits the address register. */
  lemma WriteGoesWhereTheHeaderSays(run: seq<Open>, ins: seq<In>, t: int)
    requires IsOpenRun(run, ins) && 0 <= t < |ins|
    requires 0 <= ins[t].limit <= HALF_WORDS
    ensures var o := run[t];
            var w := Comb(o.dma, Seen(o, ins[t])).write;
            w.Some? ==>
              && w.value.adr == PixelAddress(WriteBase(o.disp), ChunkPixels(o.dma), o.count)
              && w.value.adr < WriteBase(o.disp) + ins[t].limit
              && (WriteBase(o.disp) + ChunkPixels(o.dma) + o.count < W24 ==>
                    WriteBase(o.disp) <= w.value.adr && !(o.disp <= w.value.adr < o.disp + HALF_WORDS))
  {
    RunAddress(run, ins, t);
  }

  /** A payload of `n` pixels keeps every accepted write inside the write half. */
  predicate StaysInHalf(base: int, offset: int, n: int, limit: int) {
    forall k | 0 <= k < n && PixelAddress(base, offset, k) < base + limit :: base <= PixelAddress(base, offset, k)
  }

  /** SEPARATION, EXACTLY. The engine checks only the upper bound, so a payload stays in the write
      half if and only if its last pixel's address does not wrap the 24-bit register. */
  lemma SeparationExactly(base: int, offset: int, n: int, limit: int)
    requires base == FB_BASE || base == FB_HIGH
    requires 0 <= offset < W24 && 0 < n && 0 <= limit <= HALF_WORDS
    ensures StaysInHalf(base, offset, n, limit) <==> base + offset + n <= W24
  {
    if base + offset + n > W24 {
      var k := if base + offset >= W24 then 0 else W24 - base - offset;
      assert 0 <= k < n && PixelAddress(base, offset, k) < base;
    }
  }

  /** Every chunk index the 512-bit bitmap can hold is safe, for payloads far beyond any datagram. */
  lemma BitmapIndicesAreSafe(indexed: bool, wide: bool, index: int, base: int, n: int, limit: int)
    requires base == FB_BASE || base == FB_HIGH
    requires 0 <= index < MASK_BITS && 0 < n <= 0x10_0000 && 0 <= limit <= HALF_WORDS
    ensures StaysInHalf(base, ChunkOffset(indexed, wide, index) % W24, n, limit)
  {
    SeparationExactly(base, ChunkOffset(indexed, wide, index) % W24, n, limit);
  }

  // --- The writes do happen -----------------------------------------------------------------

  /** The payload of `len` bytes that follows a header ending in cycle t - 1: offered without a pause to a
      writer that is always ready, with no throttle. */
  predicate Payload(run: seq<Open>, ins: seq<In>, t: int, len: int, limit: int) {
    && IsOpenRun(run, ins) && 1 <= t && 1 <= len && t + len <= |ins|
    && HeaderEnds(run[t - 1].dma, Seen(run[t - 1], ins[t - 1])) && !ins[t - 1].last && run[t].dma.gap == 0
    && forall j | 0 <= j < len :: OfferedAt(ins, t, j, len, limit)
  }

  predicate Offered(i: In, limit: int, last: bool) {
    i.valid && i.writerReady && i.throttle == 0 && i.limit == limit && i.last == last
  }

  predicate OfferedAt(ins: seq<In>, t: int, j: int, len: int, limit: int)
    requires 0 <= t + j < |ins|
  {
    Offered(ins[t + j], limit, j == len - 1)
  }

  /** `j` bytes into the payload whose header left the engine in `first`. */
  predicate BytesIn(first: Open, o: Open, j: int) {
    && o.dma.fsm == Pix && o.dma.gap == 0 && o.dma.stall == 0 && o.disp == first.disp
    && o.dma.indexed == first.dma.indexed && o.dma.wide == first.dma.wide && o.dma.chunkIndex == first.dma.chunkIndex
    && 0 <= o.count && (if o.dma.indexed then o.count == j else 0 <= o.dma.sub <= 2 && 3 * o.count + o.dma.sub == j)
  }

  lemma ByteIn(first: Open, o: Open, i: In, j: int, limit: int)
    requires BytesIn(first, o, j) && Offered(i, limit, false)
    ensures BytesIn(first, OpenNext(o, i), j + 1)
  {
  }

  lemma {:induction false} PayloadAt(run: seq<Open>, ins: seq<In>, t: int, len: int, limit: int, j: int)
    requires Payload(run, ins, t, len, limit) && 0 <= j < len
    ensures BytesIn(run[t], run[t + j], j)
  {
    if j > 0 {
      PayloadAt(run, ins, t, len, limit, j - 1);
      assert run[t + j] == OpenNext(run[t + j - 1], ins[t + j - 1]);
      assert OfferedAt(ins, t, j - 1, len, limit);
      ByteIn(run[t], run[t + j - 1], ins[t + j - 1], j - 1, limit);
    } else {
      assert run[t] == OpenNext(run[t - 1], ins[t - 1]);
    }
  }

  /** The cycle in which pixel k's last byte is offered. */
  function PixelByte(indexed: bool, k: int): int { if indexed then k else 3 * k + 2 }

  function WriteAt(run: seq<Open>, ins: seq<In>, t: int): Option<Write>
    requires 0 <= t < |ins| && t < |run|
  {
    Comb(run[t].dma, Seen(run[t], ins[t])).write
  }

  /** Pixel k of such a payload is written if its address is below the limit, and else nothing is. */
  lemma PixelIsWritten(run: seq<Open>, ins: seq<In>, t: int, len: int, limit: int, k: int)
    requires 1 <= t < |run| && Payload(run, ins, t, len, limit) && 0 <= k && PixelByte(run[t].dma.indexed, k) < len
    ensures var a := PixelAddress(WriteBase(run[t].disp), ChunkPixels(run[t].dma), k);
            var w := WriteAt(run, ins, t + PixelByte(run[t].dma.indexed, k));
            if a < WriteBase(run[t].disp) + limit then w.Some? && w.value.adr == a else w == None
  {
    var j := PixelByte(run[t].dma.indexed, k);
    PayloadAt(run, ins, t, len, limit, j);
    RunAddress(run, ins, t + j);
    assert OfferedAt(ins, t, j, len, limit);
    assert run[t + j].count == k && ChunkPixels(run[t + j].dma) == ChunkPixels(run[t].dma);
  }

  /** A write that is not in the half being written to. */
  predicate Strays(base: int, w: Option<Write>) { w.Some? && !(base <= w.value.adr < base + HALF_WORDS) }

  /** SEPARATION, EXACTLY, IN RUNS. A payload of n pixels fed to a ready writer makes a write outside the
      write half if and only if its last pixel's address wraps the 24-bit register. */
  lemma SeparationInRuns(run: seq<Open>, ins: seq<In>, t: int, n: int, limit: int)
    requires 1 <= t < |run| && Payload(run, ins, t, if run[t].dma.indexed then n else 3 * n, limit) && 1 <= n && 0 <= limit <= HALF_WORDS
    ensures (forall k | 0 <= k < n :: !Strays(WriteBase(run[t].disp), PixelWrite(run, ins, t, n, k)))
       <==> WriteBase(run[t].disp) + ChunkPixels(run[t].dma) + n <= W24
  {
    var base, offset := WriteBase(run[t].disp), ChunkPixels(run[t].dma);
    var len := if run[t].dma.indexed then n else 3 * n;
    forall k | 0 <= k < n
      ensures Strays(base, PixelWrite(run, ins, t, n, k)) <==> PixelAddress(base, offset, k) < base
    {
      PixelIsWritten(run, ins, t, len, limit, k);
    }
    SeparationExactly(base, offset, n, limit);
    if !StaysInHalf(base, offset, n, limit) {
      var k :| 0 <= k < n && PixelAddress(base, offset, k) < base + limit && !(base <= PixelAddress(base, offset, k));
      assert Strays(base, PixelWrite(run, ins, t, n, k));
    }
  }

  function PixelWrite(run: seq<Open>, ins: seq<In>, t: int, n: int, k: int): Option<Write>
    requires 0 <= k < n && 0 <= t && t < |run|
    requires t + (if run[t].dma.indexed then n else 3 * n) <= |ins| < |run|
  {
    WriteAt(run, ins, t + PixelByte(run[t].dma.indexed, k))
  }

  // --- A payload that strays ----------------------------------------------------------------

  /** The header 'B','W', frame 0, chunk 33847 of 33848, and one white pixel. */
  const STRAY: seq<int> := [BYTE_B, BYTE_W, 0, 0, 0x37, 0x84, 0x38, 0x84, 0, 1, 0, 1, 255, 255, 255]

  function StrayIn(j: int): In
    requires 0 <= j < 15
  {
    In(true, STRAY[j], j == 14, true, true, HALF_WORDS, 0, true, true, FB_BASE)
  }

  /** After `k` bytes of that header. */
  predicate StrayAt(o: Open, k: int) {
    && o.disp == FB_BASE && o.dma.fsm == Hdr && o.dma.hdrIdx == k && o.dma.gap == 0
    && o.dma.frameId == 0 && o.dma.live == NO_FRAME
    && (k >= 2 ==> o.dma.wide && !o.dma.indexed)
    && (k >= 5 ==> o.dma.chunkIndex % 0x100 == 0x37) && (k >= 6 ==> o.dma.chunkIndex == 33847)
  }

  lemma StrayByte(o: Open, k: int)
    requires StrayAt(o, k) && 1 <= k <= 10
    ensures StrayAt(OpenNext(o, StrayIn(k)), k + 1)
  {
    assert STRAY[k] == (if k == 1 then 0x57 else if k == 4 then 0x37 else if k == 5 then 0x84 else STRAY[k]);
  }

  lemma StrayHeaderEnds(o: Open)
    requires StrayAt(o, 11)
    ensures var i := StrayIn(11); HeaderEnds(o.dma, Seen(o, i)) && !i.last
    ensures var o' := OpenNext(o, StrayIn(11));
            o'.disp == FB_BASE && o'.dma.gap == 0 && !o'.dma.indexed && o'.dma.wide && o'.dma.chunkIndex == 33847
  {
  }

  predicate StrayIns(ins: seq<In>) { |ins| <= 15 && forall j | 0 <= j < |ins| :: ins[j] == StrayIn(j) }

  lemma OneMore(run: seq<Open>, ins: seq<In>)
    requires IsOpenRun(run, ins) && StrayIns(ins) && |ins| < 15
    ensures var i := StrayIn(|ins|); IsOpenRun(run + [OpenNext(run[|ins|], i)], ins + [i]) && StrayIns(ins + [i])
  {
  }

  lemma {:induction false} StrayPrefix(k: nat) returns (run: seq<Open>, ins: seq<In>)
    requires 1 <= k <= 11
    ensures IsOpenRun(run, ins) && |ins| == k && StrayIns(ins) && StrayAt(run[k], k)
  {
    if k == 1 {
      run, ins := [OPEN_RESET], [];
    } else {
      run, ins := StrayPrefix(k - 1);
      StrayByte(run[k - 1], k - 1);
    }
    OneMore(run, ins);
    run, ins := run + [OpenNext(run[k - 1], StrayIn(k - 1))], ins + [StrayIn(k - 1)];
  }

  lemma StrayHeader() returns (run: seq<Open>, ins: seq<In>)
    ensures IsOpenRun(run, ins) && |ins| == 12 && StrayIns(ins) && HeaderEnds(run[11].dma, Seen(run[11], ins[11]))
    ensures var o := run[12];
            o.disp == FB_BASE && o.dma.gap == 0 && !o.dma.indexed && o.dma.wide && o.dma.chunkIndex == 33847
  {
    run, ins := StrayPrefix(11);
    StrayHeaderEnds(run[11]);
    OneMore(run, ins);
    run, ins := run + [OpenNext(run[11], StrayIn(11))], ins + [StrayIn(11)];
  }

  lemma StrayWhole() returns (run: seq<Open>, ins: seq<In>)
    ensures |ins| == 15 && StrayIns(ins) && IsOpenRun(run, ins) && HeaderEnds(run[11].dma, Seen(run[11], ins[11]))
    ensures var o := run[12];
            o.disp == FB_BASE && o.dma.gap == 0 && !o.dma.indexed && o.dma.wide && o.dma.chunkIndex == 33847
  {
    run, ins := StrayHeader();
    OneMore(run, ins);
    run, ins := run + [OpenNext(run[12], StrayIn(12))], ins + [StrayIn(12)];
    OneMore(run, ins);
    run, ins := run + [OpenNext(run[13], StrayIn(13))], ins + [StrayIn(13)];
    OneMore(run, ins);
    run, ins := run + [OpenNext(run[14], StrayIn(14))], ins + [StrayIn(14)];
  }

  lemma StrayPayload(run: seq<Open>, ins: seq<In>)
    requires |ins| == 15 && StrayIns(ins) && IsOpenRun(run, ins) && run[12].dma.gap == 0
    requires HeaderEnds(run[11].dma, Seen(run[11], ins[11]))
    ensures Payload(run, ins, 12, 3, HALF_WORDS)
  {
    forall j | 0 <= j < 3
      ensures OfferedAt(ins, 12, j, 3, HALF_WORDS)
    {
      assert ins[12 + j] == StrayIn(12 + j);
    }
    assert ins[11] == StrayIn(11);
  }

  lemma StrayAddress(o: Open)
    requires o.disp == FB_BASE && !o.dma.indexed && o.dma.wide && o.dma.chunkIndex == 33847
    ensures var a := PixelAddress(WriteBase(o.disp), ChunkPixels(o.dma), 0);
            FB_BASE <= a < FB_BASE + HALF_WORDS < WriteBase(o.disp) + HALF_WORDS
  {
  }

  /** THE CASE. Fifteen bytes after reset, the low half on display: the engine accepts a write, and it is in
      the low half. */
  lemma LargeIndexReachesTheDisplay() returns (run: seq<Open>, ins: seq<In>)
    ensures IsOpenRun(run, ins) && |ins| == 15 && StrayIns(ins)
    ensures run[14].disp == FB_BASE && WriteAt(run, ins, 14).Some?
    ensures FB_BASE <= WriteAt(run, ins, 14).value.adr < FB_BASE + HALF_WORDS
  {
    run, ins := StrayWhole();
    StrayPayload(run, ins);
    StrayAddress(run[12]);
    PixelIsWritten(run, ins, 12, 3, HALF_WORDS, 0);
    PayloadAt(run, ins, 12, 3, HALF_WORDS, 2);
  }

  // --- Bounded blocking ---------------------------------------------------------------------

  predicate Blocked(s: Regs, i: In) { !Ready(s, i) }

  predicate IsEngineRun(run: seq<Regs>, ins: seq<In>) {
    && |run| == |ins| + 1
    && run[0] == RESET
    && forall t | 0 <= t < |ins| :: run[t + 1] == Next(run[t], ins[t])
  }

  lemma {:induction false} StallInRange(run: seq<Regs>, ins: seq<In>, t: int)
    requires IsEngineRun(run, ins) && 0 <= t < |run|
    ensures 0 <= run[t].stall <= STALL_LIMIT
  {
    if t > 0 {
      StallInRange(run, ins, t - 1);
    }
  }

  lemma BlockedStep(s: Regs, i: In)
    requires Blocked(s, i) && 0 <= s.stall <= STALL_LIMIT
    ensures s.fsm == Pix
    ensures if s.stall == STALL_LIMIT then Next(s, i).fsm == Drop else Next(s, i).stall == s.stall + 1
  {
  }

  lemma {:induction false} StallCounts(run: seq<Regs>, ins: seq<In>, t: int, n: int)
    requires IsEngineRun(run, ins) && 0 <= t && 0 <= n && t + n < |ins|
    requires forall j | t <= j <= t + n :: Blocked(run[j], ins[j])
    ensures run[t + n].stall >= n
  {
    StallInRange(run, ins, t + n);
    if n > 0 {
      StallCounts(run, ins, t, n - 1);
      StallInRange(run, ins, t + n - 1);
      BlockedStep(run[t + n - 1], ins[t + n - 1]);
    }
  }

  lemma ReleasedAfterLimit(run: seq<Regs>, ins: seq<In>, t: int)
    requires IsEngineRun(run, ins) && 0 <= t && t + STALL_LIMIT < |ins|
    requires forall j | t <= j <= t + STALL_LIMIT :: Blocked(run[j], ins[j])
    ensures run[t + STALL_LIMIT + 1].fsm == Drop
  {
    StallCounts(run, ins, t, STALL_LIMIT);
    StallInRange(run, ins, t + STALL_LIMIT);
    BlockedStep(run[t + STALL_LIMIT], ins[t + STALL_LIMIT]);
  }

  /** BOUNDED BLOCKING. In any run, however the memory and the sender behave, the input is held
      not-ready for at most STALL_LIMIT + 1 cycles in a row. */
  lemma BlockingIsBounded(run: seq<Regs>, ins: seq<In>, t: int, n: int)
    requires IsEngineRun(run, ins) && 0 <= t && 0 <= n && t + n <= |ins|
    requires forall j | t <= j < t + n :: Blocked(run[j], ins[j])
    ensures n <= STALL_LIMIT + 1
  {
    if n > STALL_LIMIT + 1 {
      ReleasedAfterLimit(run, ins, t);
    }
  }
}
