/** From packets to glass: the engine's whole frame, in the memory and at the base the scan-out reads, is what
    the drivers hold. */
module EndToEnd {
  import D = Dma
  import F = Frames
  import W = WholeFrames
  import Display
  import PS = PixelSource
  import SP = Spwm
  import ShiftChain
  import Drivers
  import TakenWords
  import opened FetchPath
  import opened ScanOut
  import opened Freshness
  import opened Glass

  /** The engine's side: what arrives, its run and its schedule. */
  datatype Feed = Feed(e: F.Env, worlds: seq<F.World>, sched: seq<F.Cycle>)

  ghost predicate FeedRun(z: Feed) {
    match z case Feed(e, worlds, sched) => F.Sound(e) && F.IsRun(e, worlds, sched)
  }

  /** In this cycle the output's origin is its placement in the displayed half, and the memory it reads is the
      memory the engine writes. */
  predicate MeetsAt(w: F.World, e: Env, k: nat, place: int) {
    && k < |e.bases| && e.bases[k] == w.disp + place
    && forall a | a in w.mem :: e.mem(a) == w.mem[a]
  }

  /** Both sides run on one clock. */
  predicate Meets(worlds: seq<F.World>, envs: seq<Env>, k: nat, place: int) {
    |worlds| == |envs| + 1 && forall t | 0 <= t < |envs| :: MeetsAt(worlds[t], envs[t], k, place)
  }

  /** The framebuffer pixel an output shows at a row, column and group. */
  function Index(c: PS.Cfg, place: int, row: int, col: int, g: int): int
    requires |c.offsets| == 4
  {
    if 0 <= g < 4 then place + row * c.width + col + c.offsets[g] else -1
  }

  function PixelOr0(f: F.Frame, i: int): int { if 0 <= i < |f.pixels| then f.pixels[i] else 0 }

  function PictureOf(c: PS.Cfg, place: int, f: F.Frame): Picture
    requires |c.offsets| == 4
  {
    (row, col, g) => PixelOr0(f, Index(c, place, row, col, g))
  }

  predicate Inside(c: PS.Cfg, place: int, size: int, row: int, col: int, g: int)
    requires |c.offsets| == 4
  {
    0 <= Index(c, place, row, col, g) < size
  }

  /** The output's window lies within the frame and the write limit. */
  predicate WindowFits(c: PS.Cfg, place: int, size: int)
    requires |c.offsets| == 4
  {
    forall row, col, g | 0 <= row < c.rows && 0 <= col < c.columns && 0 <= g < 4 :: Inside(c, place, size, row, col, g)
  }

  lemma {:induction false} BaseStays(z: Feed, t: int, u: int)
    requires FeedRun(z) && 0 <= t < u <= |z.sched|
    requires forall v | t < v < u :: !Display.Flips(z.e, z.worlds, z.sched, v)
    ensures z.worlds[u].disp == z.worlds[t + 1].disp
  {
    if u > t + 1 {
      BaseStays(z, t, u - 1);
      Display.FlipMovesBase(z.e, z.worlds, z.sched, u - 1);
      assert !Display.Flips(z.e, z.worlds, z.sched, u - 1);
    }
  }

  lemma WindowHolds(c: PS.Cfg, w: F.World, e: Env, k: nat, place: int, f: F.Frame, limit: int, row: int, col: int, g: int)
    requires |c.offsets| == 4 && MeetsAt(w, e, k, place) && (w.disp == D.FB_BASE || w.disp == D.FB_HIGH)
    requires W.Holds(w.mem, w.disp, f, 0, |f.pixels|, limit) && |f.pixels| <= 748032
    requires 0 <= g < 4 && Inside(c, place, |f.pixels|, row, col, g) && Inside(c, place, limit, row, col, g)
    ensures WordIs(c, e, w.disp + place, PictureOf(c, place, f), row, col, g)
  {
    var i := Index(c, place, row, col, g);
    assert W.At(w.mem, w.disp, f, i);
    assert PS.Address(c, w.disp + place, row, col, g) == (w.disp + i) % PS.W32;
  }

  lemma WindowIsStill(c: PS.Cfg, w: F.World, e: Env, k: nat, place: int, f: F.Frame, limit: int, base: int)
    requires |c.offsets| == 4 && MeetsAt(w, e, k, place) && (w.disp == D.FB_BASE || w.disp == D.FB_HIGH)
    requires W.Holds(w.mem, w.disp, f, 0, |f.pixels|, limit) && |f.pixels| <= 748032 && base == w.disp + place
    requires WindowFits(c, place, |f.pixels|) && WindowFits(c, place, limit)
    ensures StillAt(c, e, k, base, PictureOf(c, place, f))
  {
    var pic := PictureOf(c, place, f);
    forall row, col, g | 0 <= row < c.rows && 0 <= col < c.columns && 0 <= g < 4
      ensures WordIs(c, e, base, pic, row, col, g)
    {
      assert Inside(c, place, |f.pixels|, row, col, g) && Inside(c, place, limit, row, col, g);
      WindowHolds(c, w, e, k, place, f, limit, row, col, g);
    }
  }

  /** A frame of the viewer's: flipped to at the end of cycle `t`, not flipped away from before cycle `u`. */
  ghost predicate OnShow(z: Feed, t: int, u: int) {
    match z
    case Feed(e, worlds, sched) =>
      && 0 <= t < u <= |sched| && |worlds| == |sched| + 1
      && Display.Flips(e, worlds, sched, t) && !F.NothingPromised(worlds[t].dma) && 0 < worlds[t].pkt <= |e.frames|
      && forall v | t < v < u :: !Display.Flips(e, worlds, sched, v)
  }

  /** The frame whose chunks had all arrived before the flip. */
  function Frame(z: Feed, t: int): F.Frame
    requires 0 <= t < |z.worlds| && 0 < z.worlds[t].pkt <= |z.e.frames|
  {
    z.e.frames[z.worlds[t].pkt - 1]
  }

  lemma ShownFrame(z: Feed, t: int, u: int, s: int)
    requires FeedRun(z) && OnShow(z, t, u) && t < s <= u
    ensures var f, w := Frame(z, t), z.worlds[s];
            && |f.pixels| <= 748032 && (w.disp == D.FB_BASE || w.disp == D.FB_HIGH)
            && w.disp == z.worlds[t + 1].disp && W.Holds(w.mem, w.disp, f, 0, |f.pixels|, z.e.limit)
  {
    Display.WholeFramesOnly(z.e, z.worlds, z.sched, t, s);
    Display.RunInv(z.e, z.worlds, z.sched, s);
    BaseStays(z, t, s);
    W.StartBounds(Frame(z, t), 0);
  }

  /** A FRAME ON SHOW IS STILL: while the engine writes the next one, and up to the cycle of the next flip, the
      scan-out finds at its base, at every place of its window, that frame's pixels. */
  lemma FrameIsStill(z: Feed, t: int, u: int, c: PS.Cfg, envs: seq<Env>, k: nat, place: int)
    requires FeedRun(z) && OnShow(z, t, u) && Meets(z.worlds, envs, k, place) && |c.offsets| == 4
    requires WindowFits(c, place, |Frame(z, t).pixels|) && WindowFits(c, place, z.e.limit)
    ensures Still(c, envs, k, z.worlds[t + 1].disp + place, PictureOf(c, place, Frame(z, t)), t + 1, u + 1)
  {
    var f := Frame(z, t);
    forall s | t + 1 <= s < u + 1 && 0 <= s < |envs|
      ensures StillAt(c, envs[s], k, z.worlds[t + 1].disp + place, PictureOf(c, place, f))
    {
      ShownFrame(z, t, u, s);
      assert MeetsAt(z.worlds[s], envs[s], k, place);
      WindowIsStill(c, z.worlds[s], envs[s], k, place, f, z.e.limit, z.worlds[t + 1].disp + place);
    }
  }

  /** The engine and the side share memory and base, and the side's window is within the frame. */
  ghost predicate Joined(x: Side, z: Feed, place: int, t: int) {
    match x
    case Side(b, run, envs, k, c, d, cards, pins, fill, lane) =>
      && Meets(z.worlds, envs, k, place) && k < |b.outputs| && |b.outputs[k].offsets| == 4
      && 0 <= t < |z.worlds| && 0 < z.worlds[t].pkt <= |z.e.frames|
      && WindowFits(b.outputs[k], place, |Frame(z, t).pixels|) && WindowFits(b.outputs[k], place, z.e.limit)
  }

  function ShownBy(x: Side, z: Feed, place: int, t: nat): Shown
    requires Joined(x, z, place, t) && t + 1 < |z.worlds|
  {
    Shown(z.worlds[t + 1].disp + place, PictureOf(x.b.outputs[x.k], place, Frame(z, t)), t + 1)
  }

  lemma FrameStillFor(z: Feed, t: nat, x: Side, place: int, t0: nat, t1: nat)
    requires FeedRun(z) && OnShow(z, t, t1) && Joined(x, z, place, t)
    requires t < t0 <= t1 < |x.envs| && Settled(x, t + 1, t0, t1)
    ensures t + 1 < |z.worlds| && StillFor(x, ShownBy(x, z, place, t), t0, t1)
  {
    FrameIsStill(z, t, t1, x.b.outputs[x.k], x.envs, x.k, place);
  }

  /** FROM PACKETS TO GLASS. Under any loss, duplication and order of packets, any stalls and latencies that keep
      fills fast enough: take the frame whose chunks had all arrived when the engine flipped. If it is still on
      show when a frame of the panel is done whose reads are all three rows or more past the flip (`RowsSettle`:
      they are if the first one is), it is in the drivers: each position holds the converted pixel of that frame
      at its own row, column and group. */
  lemma FrameReachesTheGlass(z: Feed, t: nat, x: Side, place: int, t0: nat, t1: nat, n: nat,
                             chains: seq<ShiftChain.Chain>, m: Drivers.Memory, p: TakenWords.Place)
    requires FeedRun(z) && Panel(x) && OnShow(z, t, t1) && Joined(x, z, place, t)
    requires t < t0 <= t1 < |x.envs| && Settled(x, t + 1, t0, t1) && FrameOf(x, t0, t1)
    requires Chips(x, n, chains) && TakenWords.OnGlass(x.c, m, p)
    ensures t + 1 < |z.worlds| && Holds(x, ShownBy(x, z, place, t).pic, n, chains, TickAt(x, t1), m, p)
  {
    FrameStillFor(z, t, x, place, t0, t1);
    GlassShowsMemory(x, ShownBy(x, z, place, t), t0, t1, n, chains, m, p);
  }
}
