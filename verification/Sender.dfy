/** The test-pattern sender, and the round trip through the DMA engine. */
module Sender {
  import opened Dma
  import opened Frames
  import opened WholeFrames
  import opened Display

  const BYTES_PER_CHUNK: int := 1461

  function Chunks(len: int): int { (len + BYTES_PER_CHUNK - 1) / BYTES_PER_CHUNK }

  /** `struct.pack("<2sHBBHH", ...)` raises unless every field fits. */
  predicate Packable(id: int, total: int, width: int, height: int) {
    0 <= id < W16 && 0 <= total < 0x100 && 0 <= width < W16 && 0 <= height < W16
  }

  function Header(id: int, index: int, total: int, width: int, height: int): seq<byte>
    requires Packable(id, total, width, height) && 0 <= index < 0x100
  {
    [BYTE_B, BYTE_M, id % 0x100, id / 0x100, index, total,
     width % 0x100, width / 0x100, height % 0x100, height / 0x100]
  }

  function Min(a: int, b: int): int { if a < b then a else b }

  function Packet(data: seq<byte>, id: int, index: int, width: int, height: int): seq<byte>
    requires Packable(id, Chunks(|data|), width, height) && 0 <= index < Chunks(|data|)
  {
    Header(id, index, Chunks(|data|), width, height)
    + data[index * BYTES_PER_CHUNK..Min(index * BYTES_PER_CHUNK + BYTES_PER_CHUNK, |data|)]
  }

  /** The sending loop; pacing is left out. Nothing is sent when the first header cannot be packed. */
  method SendRgbData(data: seq<byte>, width: int, height: int, id: int) returns (sent: seq<seq<byte>>, raised: bool)
    ensures raised <==> Chunks(|data|) > 0 && !Packable(id, Chunks(|data|), width, height)
    ensures raised ==> sent == []
    ensures !raised ==>
              && |sent| == Chunks(|data|)
              && forall n | 0 <= n < |sent| :: sent[n] == Packet(data, id, n, width, height)
    ensures |data| > 0 && !raised ==> SentFor(sent, data, id, width, height)
  {
    sent, raised := [], false;
    var total := (|data| + BYTES_PER_CHUNK - 1) / BYTES_PER_CHUNK;
    var i := 0;
    while i < total
      invariant 0 <= i <= total == Chunks(|data|) && |sent| == i
      invariant i > 0 ==> Packable(id, total, width, height)
      invariant forall n | 0 <= n < i :: sent[n] == Packet(data, id, n, width, height)
    {
      if !(0 <= id < W16 && total < 0x100 && 0 <= width < W16 && 0 <= height < W16) {
        return [], true;
      }
      var offset := i * BYTES_PER_CHUNK;
      var stop := if offset + BYTES_PER_CHUNK < |data| then offset + BYTES_PER_CHUNK else |data|;
      sent := sent + [Header(id, i, total, width, height) + data[offset..stop]];
      i := i + 1;
    }
  }

  // --- The frame the packets describe -------------------------------------------------------

  function PixelAt(data: seq<byte>, k: int): int
    requires 0 <= k && 3 * k + 2 < |data|
  {
    RgbWord(data[3 * k], data[3 * k + 1], data[3 * k + 2])
  }

  function FrameOf(data: seq<byte>, id: int): Frame {
    Frame(id, Rgb, Chunks(|data|), seq(|data| / 3, k requires 0 <= k < |data| / 3 => PixelAt(data, k)))
  }

  /** An image the narrow header can carry. */
  predicate Sendable(data: seq<byte>, id: int, width: int, height: int) {
    |data| > 0 && |data| % 3 == 0 && Packable(id, Chunks(|data|), width, height)
  }

  lemma FrameIsValid(data: seq<byte>, id: int, width: int, height: int)
    requires Sendable(data, id, width, height)
    ensures ValidFrame(FrameOf(data, id))
  {
  }

  /** The header names the image's width and height, after the counters. */
  predicate SaysSize(p: seq<byte>, fmt: Format, width: int, height: int) {
    var at := if fmt == Wide then 8 else 6;
    at + 4 == HdrLen(fmt) <= |p| && Le16(p[at], p[at + 1]) == width && Le16(p[at + 2], p[at + 3]) == height
  }

  /** What the sender emits is what the parser calls a chunk: no gap and no overlap at the chunk
      boundaries, and a short tail. */
  lemma PacketIsChunk(data: seq<byte>, id: int, index: int, width: int, height: int)
    requires Sendable(data, id, width, height) && 0 <= index < Chunks(|data|)
    ensures var p := Packet(data, id, index, width, height);
            && |p| >= 2 && !Inert(p) && IsChunk(p, FrameOf(data, id)) && IndexOf(p, Rgb) == index
            && SaysSize(p, Rgb, width, height)
  {
    var f := FrameOf(data, id);
    var p := Packet(data, id, index, width, height);
    FrameIsValid(data, id, width, height);
    var n := End(f, index) - Start(Rgb, index);
    assert |p| == 10 + 3 * n;
    forall k | 0 <= k < n
      ensures PixelOf(p, Rgb, k) == f.pixels[Start(Rgb, index) + k]
    {
      PacketPixel(data, id, index, width, height, k);
    }
  }

  lemma PacketPixel(data: seq<byte>, id: int, index: int, width: int, height: int, k: int)
    requires Sendable(data, id, width, height) && 0 <= index < Chunks(|data|)
    requires 0 <= k && index * BYTES_PER_CHUNK + 3 * k + 2 < |data| && 3 * k + 2 < BYTES_PER_CHUNK
    ensures var p := Packet(data, id, index, width, height);
            |p| >= 13 + 3 * k && PixelOf(p, Rgb, k) == PixelAt(data, 487 * index + k)
  {
    var p := Packet(data, id, index, width, height);
    var body := data[index * BYTES_PER_CHUNK..Min(index * BYTES_PER_CHUNK + BYTES_PER_CHUNK, |data|)];
    var at := 3 * (487 * index + k);
    assert p[10 + 3 * k] == body[3 * k] == data[at];
    assert p[11 + 3 * k] == body[3 * k + 1] == data[at + 1];
    assert p[12 + 3 * k] == body[3 * k + 2] == data[at + 2];
  }

  /** What `SendRgbData` returns when it does not raise. */
  predicate SentFor(sent: seq<seq<byte>>, data: seq<byte>, id: int, width: int, height: int) {
    && Packable(id, Chunks(|data|), width, height)
    && |sent| == Chunks(|data|)
    && forall n | 0 <= n < |sent| :: sent[n] == Packet(data, id, n, width, height)
  }

  predicate IsNth(p: seq<byte>, f: Frame, n: int) {
    |p| >= HdrLen(f.fmt) && !Inert(p) && IsChunk(p, f) && IndexOf(p, f.fmt) == n
  }

  /** One packet per chunk of the frame, in chunk order. */
  predicate Chunked(sent: seq<seq<byte>>, f: Frame) {
    && ValidFrame(f) && |sent| == f.total
    && forall n | 0 <= n < |sent| :: IsNth(sent[n], f, n)
  }

  lemma SentIsChunked(sent: seq<seq<byte>>, data: seq<byte>, id: int, width: int, height: int)
    requires Sendable(data, id, width, height) && SentFor(sent, data, id, width, height)
    ensures Chunked(sent, FrameOf(data, id))
  {
    FrameIsValid(data, id, width, height);
    forall n | 0 <= n < |sent|
      ensures IsNth(sent[n], FrameOf(data, id), n)
    {
      PacketIsChunk(data, id, n, width, height);
    }
  }

  // --- Any order, any repetition ------------------------------------------------------------

  /** The arriving packets are the sent ones, in any order and any multiplicity, each at least once. */
  predicate Shuffled(e: Env, sent: seq<seq<byte>>, f: Frame) {
    && |e.frames| == |e.pkts| && 0 <= e.limit <= HALF_WORDS
    && (forall n | 0 <= n < |e.pkts| :: e.frames[n] == f && e.pkts[n] in sent)
    && (forall i | 0 <= i < |sent| :: sent[i] in e.pkts)
  }

  lemma ShuffledIsSound(e: Env, sent: seq<seq<byte>>, f: Frame)
    requires Chunked(sent, f) && Shuffled(e, sent, f)
    ensures Sound(e)
    ensures forall n | 0 <= n < |e.pkts| :: IsPixelPacket(e, n)
  {
    forall n | 0 <= n < |e.pkts|
      ensures IsPixelPacket(e, n) && IsChunk(e.pkts[n], e.frames[n])
    {
      var i :| 0 <= i < |sent| && e.pkts[n] == sent[i];
      assert IsNth(sent[i], f, i);
    }
  }

  /** One frame, one run: nothing restarts the bitmap after the first packet. */
  predicate OneRun(w: World) { w.runStart == 0 && (w.cur.None? ==> w.pkt == 0) }

  /** Every packet is a pixel packet of the frame. */
  predicate OneFrame(e: Env, f: Frame) {
    |e.frames| == |e.pkts| && forall n | 0 <= n < |e.pkts| :: e.frames[n] == f && IsPixelPacket(e, n)
  }

  lemma OneRunStep(e: Env, w: World, c: Cycle, f: Frame)
    requires Sound(e) && Tracked(e, w) && OneRun(w)
    requires OneFrame(e, f)
    ensures OneRun(Step(e, w, c))
  {
    if FrameChanges(w.dma, Inputs(e, w, c)) {
      HeaderEndIsChunk(e, w, c);
      assert w.cur.None?;
    }
    StepCases(e, w, c);
  }

  lemma {:induction false} RunOneRun(e: Env, run: seq<World>, sched: seq<Cycle>, t: int, f: Frame)
    requires Sound(e) && IsRun(e, run, sched) && 0 <= t < |run|
    requires OneFrame(e, f)
    ensures OneRun(run[t])
  {
    if t > 0 {
      RunOneRun(e, run, sched, t - 1, f);
      RunInv(e, run, sched, t - 1);
      assert CycleAt(e, run, sched, t - 1);
      OneRunStep(e, run[t - 1], sched[t - 1], f);
    }
  }

  lemma AllArrived(e: Env, w: World, sent: seq<seq<byte>>, f: Frame)
    requires Chunked(sent, f) && Shuffled(e, sent, f)
    requires Accounted(e, w) && w.runStart == 0 && w.pkt == |e.pkts| && PacketsDropped(w.log) == {}
    ensures Indices(f.total) <= w.dma.arrival
  {
    ShuffledIsSound(e, sent, f);
    forall x | x in Indices(f.total)
      ensures x in w.dma.arrival
    {
      assert sent[x] in e.pkts && IsNth(sent[x], f, x);
      var n :| 0 <= n < |e.pkts| && e.pkts[n] == sent[x];
      assert IsPixelPacket(e, n) && Index(e, n) == x;
    }
  }

  /** Once every chunk of a frame has been taken and none was abandoned, the write half holds it. */
  lemma ShuffledFrameIsWritten(e: Env, run: seq<World>, sched: seq<Cycle>, t: int, sent: seq<seq<byte>>, f: Frame)
    requires Chunked(sent, f) && Shuffled(e, sent, f)
    requires IsRun(e, run, sched) && 0 <= t < |run|
    requires run[t].pkt == |e.pkts| && PacketsDropped(run[t].log) == {}
    ensures Holds(run[t].mem, WriteBase(run[t].disp), f, 0, |f.pixels|, e.limit)
  {
    var w := run[t];
    ShuffledIsSound(e, sent, f);
    RunInv(e, run, sched, t);
    RunAccounted(e, run, sched, t);
    RunOneRun(e, run, sched, t, f);
    AllArrived(e, w, sent, f);
    assert sent[0] in e.pkts;
    assert w.cur == Some(f);
    IndicesCount(f.total);
    SubsetCount(Indices(f.total), w.dma.arrival);
    ArrivalCount(w.dma, f);
    CountIsEvidence(e, w);
  }

  /** Pixel k of the image is in the write half as R | G << 8 | B << 16. */
  predicate Written(w: World, data: seq<byte>, k: int)
    requires 0 <= k < |data| / 3
  {
    var a := WriteBase(w.disp) + k;
    a in w.mem && w.mem[a] == data[3 * k] as int + 0x100 * data[3 * k + 1] as int + 0x1_0000 * data[3 * k + 2] as int
  }

  /** SENDER AND ENGINE UNDO EACH OTHER. Whatever order and repetition the network imposes on the
      packets of `SendRgbData`, pixel k of the image ends up at write base + k. */
  lemma RoundTrip(e: Env, run: seq<World>, sched: seq<Cycle>, t: int, sent: seq<seq<byte>>,
                  data: seq<byte>, id: int, width: int, height: int)
    requires Sendable(data, id, width, height) && SentFor(sent, data, id, width, height)
    requires Shuffled(e, sent, FrameOf(data, id))
    requires IsRun(e, run, sched) && 0 <= t < |run|
    requires run[t].pkt == |e.pkts| && PacketsDropped(run[t].log) == {}
    ensures forall k | 0 <= k < |data| / 3 && k < e.limit :: Written(run[t], data, k)
  {
    var f := FrameOf(data, id);
    SentIsChunked(sent, data, id, width, height);
    ShuffledFrameIsWritten(e, run, sched, t, sent, f);
    forall k | 0 <= k < |data| / 3 && k < e.limit
      ensures Written(run[t], data, k)
    {
      assert At(run[t].mem, WriteBase(run[t].disp), f, k);
    }
  }
}
