/** Packets, frames and the closed system the viewer looks at: the engine, the swap register and
    the framebuffer memory, fed by any packet list under any schedule. */
module Frames {
  import opened Dma

  // --- Frames and their packets -------------------------------------------------------------

  datatype Format = Rgb | Wide | Indexed

  function HdrLen(f: Format): int { if f == Wide then 12 else 10 }

  function Magic(f: Format): byte {
    match f case Rgb => BYTE_M case Wide => BYTE_W case Indexed => BYTE_I
  }

  /** First pixel of chunk `index`: so many pixels fill a datagram behind the header. */
  function Start(f: Format, index: int): int {
    match f case Rgb => 487 * index case Wide => 486 * index case Indexed => 1461 * index
  }

  /** A frame: `total` chunks carrying `pixels` framebuffer words. */
  datatype Frame = Frame(id: int, fmt: Format, total: int, pixels: seq<int>)

  predicate ValidFrame(f: Frame) {
    && 1 <= f.total <= MASK_BITS
    && Start(f.fmt, f.total - 1) < |f.pixels| <= Start(f.fmt, f.total)
  }

  /** One past the last pixel of chunk `index`; the last chunk may be short. */
  function End(f: Frame, index: int): int {
    if Start(f.fmt, index + 1) <= |f.pixels| then Start(f.fmt, index + 1) else |f.pixels|
  }

  function Le16(low: byte, high: byte): int { low + 0x100 * high }

  function IndexOf(p: seq<byte>, f: Format): int
    requires |p| >= HdrLen(f)
  {
    if f == Wide then Le16(p[4], p[5]) else p[4]
  }

  function TotalOf(p: seq<byte>, f: Format): int
    requires |p| >= HdrLen(f)
  {
    if f == Wide then Le16(p[6], p[7]) else p[5]
  }

  /** Bytes the first `n` pixels take on the wire. */
  function PayloadLen(f: Format, n: int): int { if f == Indexed then n else 3 * n }

  function RgbWord(r: int, g: int, b: int): int { r + 0x100 * g + 0x1_0000 * b }

  function PixelOf(p: seq<byte>, f: Format, k: int): int
    requires 0 <= k && HdrLen(f) + PayloadLen(f, k + 1) <= |p|
  {
    var b := HdrLen(f) + PayloadLen(f, k);
    if f == Indexed then p[b] else RgbWord(p[b], p[b + 1], p[b + 2])
  }

  /** The packet is an untruncated chunk of the frame. */
  predicate IsChunk(p: seq<byte>, f: Frame) {
    && |p| > HdrLen(f.fmt)
    && p[0] == BYTE_B && p[1] == Magic(f.fmt)
    && Le16(p[2], p[3]) == f.id
    && TotalOf(p, f.fmt) == f.total
    && var index := IndexOf(p, f.fmt);
       var n := End(f, index) - Start(f.fmt, index);
       && index < f.total
       && 0 < n && Start(f.fmt, index) + n <= |f.pixels|
       && |p| == HdrLen(f.fmt) + PayloadLen(f.fmt, n)
       && forall k | 0 <= k < n :: PixelOf(p, f.fmt, k) == f.pixels[Start(f.fmt, index) + k]
  }

  /** The packet never completes a pixel header: foreign magic, or cut off before the header ends. */
  predicate Inert(p: seq<byte>)
    requires |p| >= 2
  {
    || p[0] != BYTE_B
    || (p[1] != BYTE_M && p[1] != BYTE_W && p[1] != BYTE_I)
    || |p| < (if p[1] == BYTE_W then 12 else 10)
  }

  /** What arrives: the packets in arrival order (lost ones are simply absent, duplicates appear
      twice), and for each the frame it belongs to. */
  datatype Env = Env(pkts: seq<seq<byte>>, frames: seq<Frame>, limit: int)

  /** Packet n is of the frame before it, unless it brings another frame id. */
  predicate GoesOnAt(e: Env, n: int)
    requires 0 < n < |e.pkts| == |e.frames|
  {
    |e.pkts[n]| >= 2 ==>
      (Inert(e.pkts[n]) || e.frames[n].id == e.frames[n - 1].id ==> e.frames[n] == e.frames[n - 1])
  }

  /** The senders' side of the bargain. Every packet that completes a header is a whole chunk of its
      frame, and as long as the frame id does not change the frame does not either. A packet that
      completes no header is labelled with the frame before it. */
  predicate Sound(e: Env) {
    && |e.frames| == |e.pkts|
    && 0 <= e.limit <= HALF_WORDS
    && (forall n | 0 <= n < |e.pkts| ::
          |e.pkts[n]| >= 2 && (Inert(e.pkts[n]) || (ValidFrame(e.frames[n]) && IsChunk(e.pkts[n], e.frames[n]))))
    && (forall n | 0 < n < |e.pkts| :: GoesOnAt(e, n))
  }

  // --- The closed system --------------------------------------------------------------------

  /** The environment's free choices in one cycle. */
  datatype Cycle = Cycle(offer: bool, writerReady: bool, throttle: int)

  datatype Event = NewRun(pkt: int) | Landed(pkt: int, index: int) | Dropped(pkt: int)

  /** Registers and memory, the position in the packet list, and the bookkeeping the theorems speak
      about: the frame whose packets are arriving, the one on show, where its run began, the log. */
  datatype World = World(dma: Regs, disp: int, mem: map<int, int>, pkt: int, off: int,
                         cur: Option<Frame>, shown: Option<Frame>, runStart: int, log: seq<Event>)

  function Initial(mem: map<int, int>): World {
    World(RESET, FB_BASE, mem, 0, 0, None, None, 0, [])
  }

  predicate InBounds(e: Env, w: World) {
    && 0 <= w.pkt <= |e.pkts| == |e.frames|
    && 0 <= w.off
    && (w.pkt < |e.pkts| ==> w.off < |e.pkts[w.pkt]|)
  }

  function Inputs(e: Env, w: World, c: Cycle): In
    requires InBounds(e, w)
  {
    if c.offer && w.pkt < |e.pkts|
    then In(true, e.pkts[w.pkt][w.off], w.off == |e.pkts[w.pkt]| - 1, c.writerReady,
            true, e.limit, c.throttle, true, true, w.disp)
    else In(false, 0, false, c.writerReady, true, e.limit, c.throttle, true, true, w.disp)
  }

  function Events(w: World, i: In): seq<Event> {
    if FrameChanges(w.dma, i) then [NewRun(w.pkt)]
    else if Comb(w.dma, i).landed then [Landed(w.pkt, w.dma.chunkIndex % MASK_BITS)]
    else if w.dma.fsm == Pix && Next(w.dma, i).fsm == Drop then [Dropped(w.pkt)]
    else []
  }

  /** Both counters still read zero: nothing was ever promised. */
  predicate NothingPromised(s: Regs) { s.received == 0 && s.live.total == 0 }

  function Step(e: Env, w: World, c: Cycle): World
    requires InBounds(e, w)
  {
    var i := Inputs(e, w, c);
    var o := Comb(w.dma, i);
    var taken := i.valid && o.ready;
    World(Next(w.dma, i),
          SwapNext(w.disp, None, o.swapReq),
          if o.write.Some? then w.mem[o.write.value.adr := o.write.value.data] else w.mem,
          if taken && i.last then w.pkt + 1 else w.pkt,
          if taken then (if i.last then 0 else w.off + 1) else w.off,
          if HeaderEnds(w.dma, i) then Some(e.frames[w.pkt]) else w.cur,
          if !o.swapReq then w.shown else if NothingPromised(w.dma) then None else w.cur,
          if FrameChanges(w.dma, i) then w.pkt else w.runStart,
          w.log + Events(w, i))
  }

  // --- Runs ---------------------------------------------------------------------------------

  predicate CycleAt(e: Env, run: seq<World>, sched: seq<Cycle>, t: int)
    requires |run| == |sched| + 1 && 0 <= t < |sched|
  {
    InBounds(e, run[t]) && run[t + 1] == Step(e, run[t], sched[t])
  }

  /** A run of the closed system: any initial memory, any schedule. */
  ghost predicate IsRun(e: Env, run: seq<World>, sched: seq<Cycle>) {
    && |run| == |sched| + 1
    && run[0] == Initial(run[0].mem)
    && forall t | 0 <= t < |sched| :: CycleAt(e, run, sched, t)
  }
}
