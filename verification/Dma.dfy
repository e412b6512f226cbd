/** The streamed-pixel DMA engine and the display's hardware swap register.

    One call of `Clock` is one rising edge of the system clock. `Next` and `Comb` are the same
    clock edge written as functions on register values, so that lemmas can quantify over runs. */
module Dma {

  datatype Option<+T> = None | Some(value: T)

  type byte = x: int | 0 <= x < 256

  // Framebuffer halves in 32-bit words (hub75.py) and the engine's build parameters.
  const FB_BASE: nat := 0x140000 / 4
  const HALF_WORDS: nat := 0x140000 / 4
  const FB_HIGH: nat := FB_BASE + HALF_WORDS
  const STALL_LIMIT: nat := 8192
  const MASK_BITS: nat := 512

  const W16: nat := 0x1_0000
  const W24: nat := 0x100_0000
  
  const BYTE_B: byte := 0x42
  const BYTE_M: byte := 0x4D
  const BYTE_W: byte := 0x57
  const BYTE_I: byte := 0x49

  datatype Fsm = Idle | Hdr | Pix | Drop

  /** The identity of a frame as its header states it. */
  datatype Ident = Ident(id: int, total: int, indexed: bool)

  /** The published record of the last finished frame. */
  datatype Snapshot = Snapshot(bitmap: set<int>, ident: Ident, seqNo: int)

  /** Every register of the engine that its behaviour depends on, plus the published status. */
  datatype Regs = Regs(
    fsm: Fsm, hdrIdx: int, chunkIndex: int, wide: bool, indexed: bool,
    pixAdr: int, sub: int, r: int, g: int, stall: int, gap: int,
    frameId: int, totalHdr: int,
    arrival: set<int>, received: int, live: Ident, done: Snapshot)

  /** What the engine sees in one cycle: one stream beat, the writer's ready, the CSRs and the
      base the display is reading. */
  datatype In = In(valid: bool, data: int, last: bool, writerReady: bool,
                   enable: bool, limit: int, throttle: int,
                   autoSwap: bool, wholeOnly: bool, displayBase: int)

  datatype Write = Write(adr: int, data: int)

  /** What the engine drives in the same cycle. */
  datatype Out = Out(ready: bool, write: Option<Write>, swapReq: bool, landed: bool)

  const NO_FRAME: Ident := Ident(0, 0, false)

  const RESET: Regs := Regs(Idle, 0, 0, false, false, 0, 0, 0, 0, 0, 0, 0, 0,
                            {}, 0, NO_FRAME, Snapshot({}, NO_FRAME, 0))

  // --- The two halves -----------------------------------------------------------------------

  function WriteBase(displayBase: int): int {
    if displayBase == FB_BASE then FB_HIGH else FB_BASE
  }

  function WriteBaseNext(displayBase: int, swapping: bool): int {
    if !swapping then WriteBase(displayBase)
    else if WriteBase(displayBase) == FB_BASE then FB_HIGH else FB_BASE
  }

  /** The scan-out's base register: a CSR write wins, otherwise a swap request flips it. */
  function SwapNext(base: int, csrWrite: Option<int>, swapping: bool): int {
    if csrWrite.Some? then csrWrite.value
    else if !swapping then base
    else if base == FB_BASE then FB_HIGH else FB_BASE
  }

  // --- Combinational signals ----------------------------------------------------------------

  /** Where the chunk's first pixel lies in the frame: an indexed chunk carries three times the
      pixels of an RGB one, a wide one carries one pixel fewer. */
  function ChunkOffset(indexed: bool, wide: bool, index: int): int {
    if indexed then 1461 * index
    else if wide then 486 * index
    else 487 * index
  }

  function ChunkPixels(s: Regs): int {
    ChunkOffset(s.indexed, s.wide, s.chunkIndex) % W24
  }

  function HdrLast(wide: bool): int { if wide then 11 else 9 }

  predicate HeaderEnds(s: Regs, i: In) {
    s.fsm == Hdr && i.valid && s.hdrIdx == HdrLast(s.wide)
  }

  predicate FrameChanges(s: Regs, i: In) {
    HeaderEnds(s, i) && s.frameId != s.live.id
  }

  predicate SwapReq(s: Regs, i: In) {
    FrameChanges(s, i) && (s.received == s.live.total || !i.wholeOnly)
  }

  /** The first two bytes of an RGB triple only fill `r` and `g`; every other byte is a pixel. */
  predicate Gathers(s: Regs) { !s.indexed && s.sub != 2 }

  predicate Ready(s: Regs, i: In) {
    s.fsm != Pix || Gathers(s) || (i.writerReady && s.gap == 0)
  }

  predicate InRange(s: Regs, i: In) { s.pixAdr < WriteBase(i.displayBase) + i.limit }

  function Word(s: Regs, i: In): int {
    if s.indexed then i.data else s.r + 0x100 * s.g + 0x1_0000 * i.data
  }

  function Comb(s: Regs, i: In): Out {
    Out(Ready(s, i),
        if s.fsm == Pix && !Gathers(s) && i.valid && InRange(s, i) && s.gap == 0 && i.writerReady
        then Some(Write(s.pixAdr, Word(s, i))) else None,
        SwapReq(s, i),
        s.fsm == Pix && i.valid && Ready(s, i) && i.last)
  }

  // --- One clock edge -----------------------------------------------------------------------

  function IdleNext(s: Regs, i: In): Regs {
    if !(i.valid && i.enable) then s
    else if i.data == BYTE_B then s.(hdrIdx := 1, fsm := Hdr)
    else s.(hdrIdx := 1, fsm := if i.last then Idle else Drop)
  }

  function SetLow(v: int, b: int): int { v - v % 0x100 + b }

  function SetHigh(v: int, b: int): int { v % 0x100 + 0x100 * b }

  function MagicNext(s: Regs, data: int): Regs {
    if data == BYTE_M then s.(indexed := false, wide := false)
    else if data == BYTE_W then s.(indexed := false, wide := true)
    else if data == BYTE_I then s.(indexed := true, wide := false)
    else s.(fsm := Drop)
  }

  /** One header byte that is not the last one. */
  function FieldNext(s: Regs, data: int): Regs {
    match s.hdrIdx
    case 1 => MagicNext(s, data)
    case 2 => s.(frameId := SetLow(s.frameId, data))
    case 3 => s.(frameId := SetHigh(s.frameId, data))
    case 4 => s.(chunkIndex := if s.wide then SetLow(s.chunkIndex, data) else data)
    case 5 => if s.wide then s.(chunkIndex := SetHigh(s.chunkIndex, data)) else s.(totalHdr := data)
    case 6 => if s.wide then s.(totalHdr := SetLow(s.totalHdr, data)) else s
    case 7 => if s.wide then s.(totalHdr := SetHigh(s.totalHdr, data)) else s
    case _ => s
  }

  /** The frame change: publish the finished frame, start an empty bitmap, adopt the new identity. */
  function FrameNext(s: Regs): Regs {
    s.(arrival := {}, received := 0,
       done := Snapshot(s.arrival, s.live, (s.done.seqNo + 1) % W16),
       live := Ident(s.frameId, s.totalHdr, s.indexed))
  }

  function HdrNext(s: Regs, i: In): Regs {
    if !i.valid then s
    else
      var n :=
        if HeaderEnds(s, i) then
          (if FrameChanges(s, i) then FrameNext(s) else s)
            .(pixAdr := (WriteBaseNext(i.displayBase, SwapReq(s, i) && i.autoSwap) + ChunkPixels(s)) % W24,
              sub := 0, fsm := Pix)
        else FieldNext(s, i.data);
      n.(hdrIdx := (s.hdrIdx + 1) % 16, fsm := if i.last then Idle else n.fsm)
  }

  predicate Progress(s: Regs, i: In) { s.fsm == Pix && i.valid && Ready(s, i) }

  function SetArrival(s: Regs): Regs {
    var bit := s.chunkIndex % MASK_BITS;
    s.(arrival := s.arrival + {bit},
       received := if bit in s.arrival then s.received else (s.received + 1) % W16)
  }

  function PixNext(s: Regs, i: In): Regs {
    var timedOut := if s.stall == STALL_LIMIT then s.(fsm := Drop) else s;
    if !Progress(s, i) then timedOut
    else
      var taken :=
        if Gathers(s) then
          (if s.sub == 0 then timedOut.(r := i.data) else timedOut.(g := i.data)).(sub := (s.sub + 1) % 4)
        else timedOut.(sub := 0, pixAdr := (s.pixAdr + 1) % W24);
      if i.last then SetArrival(taken).(fsm := Idle) else taken
  }

  function DropNext(s: Regs, i: In): Regs {
    if i.valid && i.last then s.(fsm := Idle) else s
  }

  function StallNext(s: Regs, i: In): int {
    if s.fsm != Pix || Progress(s, i) then 0
    else if s.stall != STALL_LIMIT then s.stall + 1
    else s.stall
  }

  function GapNext(s: Regs, i: In): int {
    if s.gap != 0 then s.gap - 1
    else if Progress(s, i) && !Gathers(s) then i.throttle
    else 0
  }

  function Next(s: Regs, i: In): Regs {
    var n := match s.fsm
      case Idle => IdleNext(s, i)
      case Hdr => HdrNext(s, i)
      case Pix => PixNext(s, i)
      case Drop => DropNext(s, i);
    n.(stall := StallNext(s, i), gap := GapNext(s, i))
  }

  // --- The prediction -----------------------------------------------------------------------

  /** `write_base_next` is the write base the swap register will produce one cycle later, for any
      display base, exactly when no CSR write moves the register to a base of the other parity. */
  lemma PredictionIsExact(base: int, csrWrite: Option<int>, swapping: bool)
    ensures WriteBaseNext(base, swapping) == WriteBase(SwapNext(base, csrWrite, swapping))
       <==> (csrWrite.Some? ==> ((csrWrite.value == FB_BASE) <==> (SwapNext(base, None, swapping) == FB_BASE)))
  {
    assert SwapNext(base, None, swapping) == FB_BASE <==> ((base == FB_BASE) != swapping);
  }

  // --- The clocked objects ------------------------------------------------------------------

  /** `fb_base_eff` of the output stages: the half the scan-out is reading. */
  class SwapRegister {
    var base: int

    constructor ()
      ensures base == FB_BASE
    {
      base := FB_BASE;
    }

    method Clock(csrWrite: Option<int>, autoSwap: bool, swapReq: bool)
      modifies this
      ensures base == SwapNext(old(base), csrWrite, autoSwap && swapReq)
    {
      if csrWrite.Some? {
        base := csrWrite.value;
      } else if autoSwap && swapReq {
        if base == FB_BASE {
          base := FB_BASE + HALF_WORDS;
        } else {
          base := FB_BASE;
        }
      }
    }
  }

  /** The engine itself. `q` holds the registers; a cycle builds `n`, the values they take at the
      edge, in the source's own order of assignments: reads see `q`, and a later assignment to the
      same register in one cycle wins. */
  class Engine {
    var q: Regs

    constructor ()
      ensures q == RESET
    {
      q := RESET;
    }

    method ClockHeader(i: In) returns (n: Regs)
      requires q.fsm == Hdr && i.valid
      ensures n == HdrNext(q, i)
    {
      n := q.(hdrIdx := (q.hdrIdx + 1) % 16);
      if q.hdrIdx == 1 {
        if i.data == BYTE_M {
          n := n.(indexed := false, wide := false);
        } else if i.data == BYTE_W {
          n := n.(indexed := false, wide := true);
        } else if i.data == BYTE_I {
          n := n.(indexed := true, wide := false);
        } else {
          n := n.(fsm := Drop);  // 'P' is the CPU's palette, the rest a bad magic
        }
      }
      if q.hdrIdx == 2 { n := n.(frameId := SetLow(q.frameId, i.data)); }
      if q.hdrIdx == 3 { n := n.(frameId := SetHigh(q.frameId, i.data)); }
      if !q.wide {
        if q.hdrIdx == 4 { n := n.(chunkIndex := i.data); }
        if q.hdrIdx == 5 { n := n.(totalHdr := i.data); }
      } else {
        if q.hdrIdx == 4 { n := n.(chunkIndex := SetLow(q.chunkIndex, i.data)); }
        if q.hdrIdx == 5 { n := n.(chunkIndex := SetHigh(q.chunkIndex, i.data)); }
        if q.hdrIdx == 6 { n := n.(totalHdr := SetLow(q.totalHdr, i.data)); }
        if q.hdrIdx == 7 { n := n.(totalHdr := SetHigh(q.totalHdr, i.data)); }
      }
      if q.hdrIdx == HdrLast(q.wide) {
        var swapReq := false;
        if q.frameId != q.live.id {
          n := n.(arrival := {}, received := 0);
          swapReq := q.received == q.live.total || !i.wholeOnly;
          n := n.(done := Snapshot(q.arrival, q.live, (q.done.seqNo + 1) % W16));
          n := n.(live := Ident(q.frameId, q.totalHdr, q.indexed));
        }
        n := n.(pixAdr := (WriteBaseNext(i.displayBase, swapReq && i.autoSwap) + ChunkPixels(q)) % W24);
        n := n.(sub := 0, fsm := Pix);
      }
      if i.last { n := n.(fsm := Idle); }
    }

    method ClockPixels(i: In) returns (n: Regs)
      requires q.fsm == Pix
      ensures n == PixNext(q, i)
    {
      n := q;
      if q.stall == STALL_LIMIT {
        n := n.(fsm := Drop);
      }
      var ready := false;
      if !q.indexed && q.sub != 2 {
        ready := true;
        if i.valid {
          if q.sub == 0 { n := n.(r := i.data); } else { n := n.(g := i.data); }
          n := n.(sub := (q.sub + 1) % 4);
        }
      } else {
        ready := i.writerReady && q.gap == 0;
        if i.valid && ready {
          n := n.(sub := 0, pixAdr := (q.pixAdr + 1) % W24);
        }
      }
      if i.valid && ready && i.last {
        var bit := q.chunkIndex % MASK_BITS;
        n := n.(arrival := q.arrival + {bit});
        if bit !in q.arrival { n := n.(received := (q.received + 1) % W16); }
        n := n.(fsm := Idle);
      }
    }

    method Clock(i: In) returns (o: Out)
      modifies this
      ensures q == Next(old(q), i)
      ensures o == Comb(old(q), i)
    {
      o := Comb(q, i);
      var n := q;
      match q.fsm {
        case Idle =>
          if i.valid && i.enable {
            n := n.(hdrIdx := 1);
            if i.data == BYTE_B {
              n := n.(fsm := Hdr);
            } else {
              if !i.last { n := n.(fsm := Drop); }
            }
          }
        case Hdr =>
          if i.valid { n := ClockHeader(i); }
        case Pix =>
          n := ClockPixels(i);
        case Drop =>
          if i.valid && i.last { n := n.(fsm := Idle); }
      }
      n := n.(stall := StallNext(q, i));
      if q.gap != 0 {
        n := n.(gap := q.gap - 1);
      } else if Progress(q, i) && !Gathers(q) {
        n := n.(gap := i.throttle);
      } else {
        n := n.(gap := 0);
      }
      q := n;
    }
  }
}
