/** The player's sender: narrow, wide and indexed frames, repeated copies, and the round trip through the
    DMA engine. */
module CardStream {
  import opened Dma
  import opened Frames
  import opened WholeFrames
  import opened Display
  import opened Sender

  const BYTES_NARROW: int := 1461
  const BYTES_WIDE: int := 1458
  const MAX_CHUNKS_NARROW: int := 255
  const MAX_UDP_PAYLOAD: int := 1472

  /** How a body goes out: the packet format, the bytes a packet carries, and the number of chunks. */
  datatype Plan = Plan(fmt: Format, stride: int, total: int)

  function Ceil(len: int, stride: int): int
    requires stride > 0
  {
    (len + stride - 1) / stride
  }

  /** Narrow counters up to 255 chunks, then wide ones and a shorter chunk; only RGB has a wide form. */
  function PlanOf(indexed: bool, len: int): Option<Plan> {
    var total := Ceil(len, BYTES_NARROW);
    if total <= MAX_CHUNKS_NARROW then Some(Plan(if indexed then Indexed else Rgb, BYTES_NARROW, total))
    else if indexed then None
    else if Ceil(len, BYTES_WIDE) > 0xFFFF then None
    else Some(Plan(Wide, BYTES_WIDE, Ceil(len, BYTES_WIDE)))
  }

  function Low(v: int): byte { v % 0x100 }

  function High(v: int): byte { v / 0x100 % 0x100 }

  function HeaderOf(p: Plan, id: int, i: int, width: int, height: int): seq<byte> {
    match p.fmt
    case Rgb => [0x42, 0x4D, Low(id), High(id), Low(i), Low(p.total), Low(width), High(width), Low(height), High(height)]
    case Indexed => [0x42, 0x49, Low(id), High(id), Low(i), Low(p.total), Low(width), High(width), Low(height), High(height)]
    case Wide => [0x42, 0x57, Low(id), High(id), Low(i), High(i), Low(p.total), High(p.total),
                  Low(width), High(width), Low(height), High(height)]
  }

  function Upto(i: int, stride: int, len: int): int { if i * stride > len then len else i * stride }

  /** Python's slice: both ends are clipped. */
  function Slice(body: seq<byte>, i: int, stride: int): seq<byte>
    requires 0 <= i && 0 <= stride
  {
    body[Upto(i, stride, |body|)..Upto(i + 1, stride, |body|)]
  }

  function PacketOf(p: Plan, body: seq<byte>, id: int, i: int, width: int, height: int): seq<byte>
    requires 0 <= i && 0 <= p.stride
  {
    HeaderOf(p, id, i, width, height) + Slice(body, i, p.stride)
  }

  /** All copies of all packets, in order. */
  function Packets(p: Plan, body: seq<byte>, id: int, width: int, height: int, copies: nat): seq<seq<byte>>
    requires 0 <= p.total && 0 <= p.stride
  {
    seq(p.total * copies, j requires 0 <= j < p.total * copies => PacketOf(p, body, id, j % p.total, width, height))
  }

  lemma TimesPositive(n: int, k: int)
    requires 0 <= n && 1 <= k
    ensures n * k >= n && (n == 0 ==> n * k == 0)
  {
  }

  predicate Fits16(v: int) { 0 <= v < 0x1_0000 }

  /** At least one copy goes out. */
  function Redundancy(copies: int): nat { if copies < 1 then 1 else copies }

  /** One card's stream. Sockets and pacing are left out; `copies` is the configured redundancy. */
  class Stream {
    const copies: int
    var frameId: int

    constructor (copies: int)
      ensures frameId == 0 && this.copies == copies
    {
      frameId := 0;
      this.copies := copies;
    }

    method SendChunked(indexed: bool, body: seq<byte>, width: int, height: int) returns (sent: seq<seq<byte>>, raised: bool)
      requires Fits16(frameId)
      modifies this
      ensures frameId == (old(frameId) + 1) % 0x1_0000
      ensures raised <==> PlanOf(indexed, |body|) == None || (body != [] && !(Fits16(width) && Fits16(height)))
      ensures sent == if raised then [] else Packets(PlanOf(indexed, |body|).value, body, frameId, width, height, Redundancy(copies))
    {
      frameId := (frameId + 1) % 0x1_0000;
      var stride := 1461;
      var total := (|body| + stride - 1) / stride;
      var wide := total > 255;
      if wide && indexed { return [], true; }
      if wide {
        stride := 1458;
        total := (|body| + stride - 1) / stride;
      }
      if total > 0xFFFF { return [], true; }
      var p := Plan(if wide then Wide else if indexed then Indexed else Rgb, stride, total);
      assert PlanOf(indexed, |body|) == Some(p);
      assert total > 0 <==> body != [];
      sent := [];
      var all := Packets(p, body, frameId, width, height, Redundancy(copies));
      TimesPositive(total, Redundancy(copies));
      var n := 0;
      while n < total * Redundancy(copies)
        invariant 0 <= n <= total * Redundancy(copies) == |all| && sent == all[..n]
        invariant n > 0 ==> Fits16(width) && Fits16(height)
      {
        if !(Fits16(width) && Fits16(height)) { return [], true; }
        sent := sent + [PacketOf(p, body, frameId, n % total, width, height)];
        n := n + 1;
      }
      raised := false;
    }

    /** An RGB frame; a body of the wrong length is refused, and takes no frame id. */
    method SendFrame(rgb: seq<byte>, width: int, height: int) returns (sent: seq<seq<byte>>, raised: bool)
      requires Fits16(frameId)
      modifies this
      ensures |rgb| != width * height * 3 ==> raised && frameId == old(frameId)
      ensures |rgb| == width * height * 3 ==> frameId == (old(frameId) + 1) % 0x1_0000
      ensures raised ==> sent == []
      ensures !raised ==> PlanOf(false, |rgb|).Some?
                          && sent == Packets(PlanOf(false, |rgb|).value, rgb, frameId, width, height, Redundancy(copies))
    {
      if |rgb| != width * height * 3 { return [], true; }
      sent, raised := SendChunked(false, rgb, width, height);
    }

    method SendFrameIndexed(indices: seq<byte>, width: int, height: int) returns (sent: seq<seq<byte>>, raised: bool)
      requires Fits16(frameId)
      modifies this
      ensures |indices| != width * height ==> raised && frameId == old(frameId)
      ensures |indices| == width * height ==> frameId == (old(frameId) + 1) % 0x1_0000
      ensures raised ==> sent == []
      ensures !raised ==> PlanOf(true, |indices|).Some?
                          && sent == Packets(PlanOf(true, |indices|).value, indices, frameId, width, height, Redundancy(copies))
    {
      if |indices| != width * height { return [], true; }
      sent, raised := SendChunked(true, indices, width, height);
    }
  }

  // --- The frame the packets describe -------------------------------------------------------

  /** A body that goes out as `p`, and that one card can take. */
  predicate Sendable(p: Plan, indexed: bool, body: seq<byte>, id: int) {
    && PlanOf(indexed, |body|) == Some(p) && body != [] && Fits16(id) && p.total <= MASK_BITS
    && (!indexed ==> |body| % 3 == 0)
  }

  function Pixels(indexed: bool, body: seq<byte>): int { if indexed then |body| else |body| / 3 }

  /** Pixel k of a body. */
  function BodyPixel(indexed: bool, body: seq<byte>, k: int): int
    requires 0 <= k < Pixels(indexed, body)
  {
    if indexed then body[k] as int
    else body[3 * k] as int + 0x100 * body[3 * k + 1] as int + 0x1_0000 * body[3 * k + 2] as int
  }

  function CardFrame(p: Plan, indexed: bool, body: seq<byte>, id: int): Frame {
    Frame(id, p.fmt, p.total,
          seq(Pixels(indexed, body), k requires 0 <= k < Pixels(indexed, body) => BodyPixel(indexed, body, k)))
  }

  /** WHICH FORMAT, told by the length: the narrow header up to 372555 bytes; beyond, an indexed frame is refused, and
      an RGB frame goes out wide up to 95550030. There are just as many chunks as the body needs. */
  lemma FormatByLength(indexed: bool, len: nat)
    ensures PlanOf(indexed, len) == None <==> len > (if indexed then 372_555 else 95_550_030)
    ensures PlanOf(indexed, len).Some? ==>
              var p := PlanOf(indexed, len).value;
              && p.fmt == (if len > 372_555 then Wide else if indexed then Indexed else Rgb)
              && p.stride == (if len > 372_555 then 1458 else 1461)
              && (p.total - 1) * p.stride < len <= p.total * p.stride
  {
  }

  /** EVERY DATAGRAM FITS the link, whatever the format; and a pixel more in each would not. */
  lemma DatagramsFit(indexed: bool, body: seq<byte>, p: Plan, id: int, i: int, width: int, height: int)
    requires PlanOf(indexed, |body|) == Some(p) && 0 <= i < p.total
    ensures |PacketOf(p, body, id, i, width, height)| <= MAX_UDP_PAYLOAD
    ensures p.fmt != Indexed ==> |HeaderOf(p, id, i, width, height)| + p.stride + 3 > MAX_UDP_PAYLOAD
  {
  }

  lemma FrameIsValid(p: Plan, indexed: bool, body: seq<byte>, id: int)
    requires Sendable(p, indexed, body, id)
    ensures ValidFrame(CardFrame(p, indexed, body, id))
    ensures (p.fmt == Indexed) == indexed && 1 <= p.total
  {
  }

  lemma TwoBytes(v: int)
    requires Fits16(v)
    ensures Le16(Low(v), High(v)) == v && (v < 0x100 ==> Low(v) as int == v)
  {
  }

  /** What the parser finds in the header. */
  lemma HeaderSays(p: Plan, id: int, i: int, width: int, height: int)
    requires Fits16(id) && Fits16(i) && Fits16(p.total) && (p.fmt != Wide ==> i < 0x100 && p.total < 0x100)
    ensures var h := HeaderOf(p, id, i, width, height);
            && |h| == HdrLen(p.fmt) && h[0] == BYTE_B && h[1] == Magic(p.fmt) && Le16(h[2], h[3]) == id
            && IndexOf(h, p.fmt) == i && TotalOf(h, p.fmt) == p.total
            && (Fits16(width) && Fits16(height) ==> SaysSize(h, p.fmt, width, height))
  {
    if Fits16(width) && Fits16(height) {
      TwoBytes(width);
      TwoBytes(height);
    }
    TwoBytes(id);
    TwoBytes(i);
    TwoBytes(p.total);
  }

  /** The bytes of chunk i. */
  lemma SliceIs(p: Plan, indexed: bool, body: seq<byte>, id: int, i: int)
    requires Sendable(p, indexed, body, id) && 0 <= i < p.total
    ensures var f, part := CardFrame(p, indexed, body, id), Slice(body, i, p.stride);
            && |part| == PayloadLen(p.fmt, End(f, i) - Start(p.fmt, i)) && 0 < End(f, i) - Start(p.fmt, i)
            && i * p.stride + |part| <= |body|
            && i * p.stride == PayloadLen(p.fmt, Start(p.fmt, i))
            && forall j | 0 <= j < |part| :: part[j] == body[i * p.stride + j]
  {
    FrameIsValid(p, indexed, body, id);
  }

  /** Byte j of the payload. */
  lemma PayloadByte(p: Plan, indexed: bool, body: seq<byte>, id: int, i: int, width: int, height: int, j: int)
    requires Sendable(p, indexed, body, id) && 0 <= i < p.total && 0 <= j < |Slice(body, i, p.stride)|
    ensures var pkt := PacketOf(p, body, id, i, width, height);
            && HdrLen(p.fmt) + j < |pkt| && PayloadLen(p.fmt, Start(p.fmt, i)) + j < |body|
            && 0 <= Start(p.fmt, i) && pkt[HdrLen(p.fmt) + j] == body[PayloadLen(p.fmt, Start(p.fmt, i)) + j]
  {
    FrameIsValid(p, indexed, body, id);
    SliceIs(p, indexed, body, id, i);
    assert |HeaderOf(p, id, i, width, height)| == HdrLen(p.fmt);
  }

  /** Byte j of the payload is the body's, counted from pixel `start`. */
  predicate ByteSent(pkt: seq<byte>, body: seq<byte>, fmt: Format, start: int, j: int) {
    && 0 <= j && 0 <= start && HdrLen(fmt) + j < |pkt| && PayloadLen(fmt, start) + j < |body|
    && pkt[HdrLen(fmt) + j] == body[PayloadLen(fmt, start) + j]
  }

  /** Pixel k of the payload, when its bytes are the body's. */
  lemma PixelBytes(pkt: seq<byte>, body: seq<byte>, fmt: Format, start: int, k: int)
    requires 0 <= start && 0 <= k < start + k + 1 <= Pixels(fmt == Indexed, body) && HdrLen(fmt) + PayloadLen(fmt, k + 1) <= |pkt|
    requires forall j | PayloadLen(fmt, k) <= j < PayloadLen(fmt, k + 1) :: ByteSent(pkt, body, fmt, start, j)
    ensures PixelOf(pkt, fmt, k) == BodyPixel(fmt == Indexed, body, start + k)
  {
    var j := PayloadLen(fmt, k);
    assert ByteSent(pkt, body, fmt, start, j);
    if fmt != Indexed {
      assert ByteSent(pkt, body, fmt, start, j + 1) && ByteSent(pkt, body, fmt, start, j + 2);
    }
  }

  /** Chunk i's pixels are on the card. */
  lemma ChunkFits(p: Plan, indexed: bool, body: seq<byte>, id: int, i: int, width: int, height: int)
    requires Sendable(p, indexed, body, id) && 0 <= i < p.total
    ensures var f := CardFrame(p, indexed, body, id);
            && 0 <= Start(p.fmt, i) && End(f, i) <= |f.pixels| == Pixels(indexed, body)
            && |PacketOf(p, body, id, i, width, height)| == HdrLen(p.fmt) + PayloadLen(p.fmt, End(f, i) - Start(p.fmt, i))
            && |Slice(body, i, p.stride)| == PayloadLen(p.fmt, End(f, i) - Start(p.fmt, i))
  {
    FrameIsValid(p, indexed, body, id);
    SliceIs(p, indexed, body, id, i);
    assert |HeaderOf(p, id, i, width, height)| == HdrLen(p.fmt);
  }

  lemma PixelSent(p: Plan, indexed: bool, body: seq<byte>, id: int, i: int, width: int, height: int, k: int)
    requires Sendable(p, indexed, body, id) && 0 <= i < p.total
    requires 0 <= k < End(CardFrame(p, indexed, body, id), i) - Start(p.fmt, i)
    ensures var f, pkt := CardFrame(p, indexed, body, id), PacketOf(p, body, id, i, width, height);
            && HdrLen(p.fmt) + PayloadLen(p.fmt, k + 1) <= |pkt| && 0 <= Start(p.fmt, i) + k < |f.pixels|
            && PixelOf(pkt, p.fmt, k) == f.pixels[Start(p.fmt, i) + k]
  {
    FrameIsValid(p, indexed, body, id);
    ChunkFits(p, indexed, body, id, i, width, height);
    var pkt := PacketOf(p, body, id, i, width, height);
    forall j | PayloadLen(p.fmt, k) <= j < PayloadLen(p.fmt, k + 1)
      ensures ByteSent(pkt, body, p.fmt, Start(p.fmt, i), j)
    {
      PayloadByte(p, indexed, body, id, i, width, height, j);
    }
    PixelBytes(pkt, body, p.fmt, Start(p.fmt, i), k);
  }

  /** What goes out is what the parser calls chunk i, in every format. */
  lemma PacketIsNth(p: Plan, indexed: bool, body: seq<byte>, id: int, i: int, width: int, height: int)
    requires Sendable(p, indexed, body, id) && 0 <= i < p.total
    ensures IsNth(PacketOf(p, body, id, i, width, height), CardFrame(p, indexed, body, id), i)
    ensures Fits16(width) && Fits16(height) ==> SaysSize(PacketOf(p, body, id, i, width, height), p.fmt, width, height)
  {
    FrameIsValid(p, indexed, body, id);
    SliceIs(p, indexed, body, id, i);
    HeaderSays(p, id, i, width, height);
    var f, pkt := CardFrame(p, indexed, body, id), PacketOf(p, body, id, i, width, height);
    var h := HeaderOf(p, id, i, width, height);
    assert pkt[..|h|] == h;
    assert IndexOf(pkt, f.fmt) == IndexOf(h, f.fmt) && TotalOf(pkt, f.fmt) == TotalOf(h, f.fmt);
    var n := End(f, i) - Start(f.fmt, i);
    forall k | 0 <= k < n
      ensures PixelOf(pkt, f.fmt, k) == f.pixels[Start(f.fmt, i) + k]
    {
      PixelSent(p, indexed, body, id, i, width, height, k);
    }
  }

  /** One copy of every packet. */
  function OneCopy(p: Plan, body: seq<byte>, id: int, width: int, height: int): seq<seq<byte>>
    requires 0 <= p.total && 0 <= p.stride
  {
    seq(p.total, i requires 0 <= i < p.total => PacketOf(p, body, id, i, width, height))
  }

  lemma SmallMod(j: int, n: int)
    requires 0 < n
    ensures 0 <= j % n < n && (0 <= j < n ==> j % n == j)
  {
  }

  lemma SentAt(p: Plan, body: seq<byte>, id: int, width: int, height: int, copies: nat, j: int)
    requires 0 < p.total && 0 <= p.stride && 0 <= j < p.total * copies
    ensures 0 <= j % p.total < p.total
    ensures Packets(p, body, id, width, height, copies)[j] == OneCopy(p, body, id, width, height)[j % p.total]
  {
    SmallMod(j, p.total);
  }

  /** COPIES REPEAT THE SAME PACKETS: each packet sent is one of the frame's, and the frame's are sent
      first, in order. */
  lemma CopiesAreTheFrame(p: Plan, body: seq<byte>, id: int, width: int, height: int, copies: nat, j: int, i: int)
    requires 0 < p.total && 0 <= p.stride && 1 <= copies && 0 <= j < p.total * copies && 0 <= i < p.total
    ensures var sent, one := Packets(p, body, id, width, height, copies), OneCopy(p, body, id, width, height);
            sent[j] in one && i < |sent| && sent[i] == one[i]
  {
    TimesPositive(p.total, copies);
    SentAt(p, body, id, width, height, copies, j);
    SentAt(p, body, id, width, height, copies, i);
    SmallMod(i, p.total);
  }

  lemma OneCopyIsChunked(p: Plan, indexed: bool, body: seq<byte>, id: int, width: int, height: int)
    requires Sendable(p, indexed, body, id)
    ensures 0 <= p.total && 0 <= p.stride
    ensures Chunked(OneCopy(p, body, id, width, height), CardFrame(p, indexed, body, id))
  {
    FrameIsValid(p, indexed, body, id);
    forall n | 0 <= n < p.total
      ensures IsNth(OneCopy(p, body, id, width, height)[n], CardFrame(p, indexed, body, id), n)
    {
      PacketIsNth(p, indexed, body, id, n, width, height);
    }
  }

  /** PLAYER AND ENGINE UNDO EACH OTHER, in all three formats: whatever order and repetition the network imposes,
      once every packet has come and none was abandoned, pixel k of the body is at write base + k. */
  lemma StreamRoundTrip(e: Env, run: seq<World>, sched: seq<Cycle>, t: int, p: Plan, indexed: bool, body: seq<byte>,
                        id: int, width: int, height: int, k: int)
    requires Sendable(p, indexed, body, id) && 0 <= p.stride
    requires Shuffled(e, OneCopy(p, body, id, width, height), CardFrame(p, indexed, body, id))
    requires IsRun(e, run, sched) && 0 <= t < |run|
    requires run[t].pkt == |e.pkts| && PacketsDropped(run[t].log) == {}
    requires 0 <= k < Pixels(indexed, body) && k < e.limit
    ensures var a := WriteBase(run[t].disp) + k; a in run[t].mem && run[t].mem[a] == BodyPixel(indexed, body, k)
  {
    var f := CardFrame(p, indexed, body, id);
    OneCopyIsChunked(p, indexed, body, id, width, height);
    ShuffledFrameIsWritten(e, run, sched, t, OneCopy(p, body, id, width, height), f);
    assert At(run[t].mem, WriteBase(run[t].disp), f, k);
  }
}
