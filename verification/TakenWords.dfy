/** The drivers hold what the stage took: every position, the word of the one tick that took its pixel. */
module TakenWords {
  import opened Spwm
  import opened Waveform
  import opened FetchOrder
  import opened FrameReads
  import opened ShiftChain
  import opened ChainRun
  import opened Drivers

  // --- The image is nothing the stage reads -------------------------------------------------

  function With(c: Cfg, image: (int, int, int) -> int): Cfg { c.(image := image) }

  lemma SameTick(c: Cfg, image: (int, int, int) -> int, s: Regs, i: In)
    ensures Next(With(c, image), s, i) == Next(c, s, i) && Lat(With(c, image), s) == Lat(c, s)
  {
  }

  lemma SameRun(c: Cfg, image: (int, int, int) -> int, run: seq<Regs>, waves: seq<Wave>, ins: seq<In>)
    requires IsRun(c, run, waves, ins)
    ensures IsRun(With(c, image), run, waves, ins)
  {
    forall t | 0 <= t < |ins|
      ensures TickAt(With(c, image), run, waves, ins, t)
    {
      assert TickAt(c, run, waves, ins, t);
      SameTick(c, image, run[t], ins[t]);
    }
  }

  lemma SameChains(c: Cfg, image: (int, int, int) -> int, n: nat, run: seq<Regs>, chains: seq<Chain>, ins: seq<In>)
    requires IsChainRun(c, n, run, chains, ins)
    ensures IsChainRun(With(c, image), n, run, chains, ins)
  {
    forall t | 0 <= t < |ins|
      ensures ChainTick(With(c, image), n, run, chains, ins, t)
    {
      assert ChainTick(c, n, run, chains, ins, t);
      SameTick(c, image, run[t], ins[t]);
    }
  }

  // --- One tick for each pixel --------------------------------------------------------------

  /** Tick j takes the pixel. */
  predicate TakesAt(c: Cfg, run: seq<Regs>, x: Pix, j: int) {
    0 <= j < |run| && Takes(run[j]) && Presented(c, run[j].ctl) == x
  }

  function Times(c: Cfg, run: seq<Regs>, from: nat, t: nat, x: Pix): nat
    requires from <= t <= |run|
  {
    Count(PixelsTaken(c, run, from, t), x)
  }

  lemma TimesNext(c: Cfg, run: seq<Regs>, from: nat, t: nat, x: Pix)
    requires from < t <= |run|
    ensures Times(c, run, from, t, x) == Times(c, run, from, t - 1, x) + (if TakesAt(c, run, x, t - 1) then 1 else 0)
  {
    Append(PixelsTaken(c, run, from, t - 1), if Takes(run[t - 1]) then [Presented(c, run[t - 1].ctl)] else [], x);
  }

  lemma {:induction false} Taking(c: Cfg, run: seq<Regs>, from: nat, t: nat, x: Pix, j: nat)
    requires from <= j < t <= |run| && TakesAt(c, run, x, j)
    ensures Times(c, run, from, t, x) >= Times(c, run, from, j, x) + 1
  {
    TimesNext(c, run, from, t, x);
    if t - 1 > j {
      Taking(c, run, from, t - 1, x, j);
    } else {
      assert t - 1 == j;
    }
  }

  /** A pixel taken once is taken in one tick. */
  lemma OneTick(c: Cfg, run: seq<Regs>, from: nat, t: nat, x: Pix, j: nat, k: nat)
    requires from <= j < t <= |run| && from <= k < t && TakesAt(c, run, x, j) && TakesAt(c, run, x, k)
    requires Times(c, run, from, t, x) == 1
    ensures j == k
  {
    Taking(c, run, from, t, x, if j < k then k else j);
    if j < k { Taking(c, run, from, k, x, j); }
    if k < j { Taking(c, run, from, j, x, k); }
  }

  /** ... and there is such a tick. */
  lemma {:induction false} SomeTick(c: Cfg, run: seq<Regs>, from: nat, t: nat, x: Pix) returns (j: nat)
    requires from <= t <= |run| && Times(c, run, from, t, x) >= 1
    ensures from <= j < t && TakesAt(c, run, x, j)
  {
    TimesNext(c, run, from, t, x);
    if TakesAt(c, run, x, t - 1) { j := t - 1; } else { j := SomeTick(c, run, from, t - 1, x); }
  }

  // --- The start of the frame that ends -----------------------------------------------------

  predicate NoneDone(run: seq<Regs>, from: nat, t: nat)
    requires t <= |run|
  {
    forall u | from <= u < t :: !FrameDone(run[u])
  }

  /** The last prefix before clock t, if the stage is in a frame then. */
  lemma {:induction false} LastStart(c: Cfg, run: seq<Regs>, waves: seq<Wave>, ins: seq<In>, from: nat, t: nat) returns (start: nat)
    requires IsRun(c, run, waves, ins) && from <= t < |run| && run[from].ctl.fsm == Prefix
    requires run[t].ctl.fsm != Idle && run[t].ctl.fsm != Hold
    ensures from <= start <= t && run[start].ctl.fsm == Prefix && NoneDone(run, start, t)
  {
    if run[t].ctl.fsm == Prefix {
      start := t;
    } else {
      assert TickAt(c, run, waves, ins, t - 1);
      start := LastStart(c, run, waves, ins, from, t - 1);
    }
  }

  // --- What the drivers hold ----------------------------------------------------------------

  /** One whole frame: from its own prefix to the tick that ends it. */
  ghost predicate Whole(c: Cfg, run: seq<Regs>, waves: seq<Wave>, ins: seq<In>, start: nat, t: nat) {
    && Buildable(c) && OrderOk(c.order) && IsRun(c, run, waves, ins) && start <= t < |ins|
    && run[start].ctl.fsm == Prefix && FrameDone(run[t]) && NoneDone(run, start, t)
  }

  lemma TakenOnce(c: Cfg, run: seq<Regs>, waves: seq<Wave>, ins: seq<In>, start: nat, t: nat, x: Pix)
    requires Whole(c, run, waves, ins, start, t)
    ensures Times(c, run, start, t, x) == (if OnPanel(c, x) then 1 else 0)
  {
    FrameTakesEachPixelOnce(c, run, waves, ins, start, t, x);
    CountIs(PixelsTaken(c, run, start, t), x);
  }

  /** The word line n was given for a pixel of the frame. */
  ghost function WordTaken(c: Cfg, run: seq<Regs>, ins: seq<In>, start: nat, t: nat, x: Pix, n: int): int
    requires t <= |ins| < |run|
  {
    if exists j: nat :: start <= j < t && TakesAt(c, run, x, j) then
      var j: nat :| start <= j < t && TakesAt(c, run, x, j);
      if 0 <= n < |ins[j].pix| then ins[j].pix[n] else 0
    else 0
  }

  ghost function ImageTaken(c: Cfg, run: seq<Regs>, ins: seq<In>, start: nat, t: nat): (int, int, int) -> int
    requires t <= |ins| < |run|
  {
    (row, col, n) => WordTaken(c, run, ins, start, t, Pix(row, col), n)
  }

  lemma WordIsTaken(c: Cfg, run: seq<Regs>, waves: seq<Wave>, ins: seq<In>, start: nat, t: nat, x: Pix, j: nat, n: nat)
    requires Whole(c, run, waves, ins, start, t) && start <= j < t && TakesAt(c, run, x, j) && n < |ins[j].pix|
    ensures WordTaken(c, run, ins, start, t, x, n) == ins[j].pix[n]
  {
    TakenOnce(c, run, waves, ins, start, t, x);
    Taking(c, run, start, t, x, j);
    var k: nat :| start <= k < t && TakesAt(c, run, x, k)
      && WordTaken(c, run, ins, start, t, x, n) == (if 0 <= n < |ins[k].pix| then ins[k].pix[n] else 0);
    OneTick(c, run, start, t, x, j, k);
  }

  lemma PixInIs(c: Cfg, image: (int, int, int) -> int, s: Ctl, n: nat)
    requires n < c.lines
    ensures var x := Presented(c, s); PixIn(With(c, image), s.row, s.chan, s.sect)[n] == image(x.row, x.col, n)
  {
    var c' := With(c, image);
    assert RowA(c', s.row, s.chan) == RowA(c, s.row, s.chan) && c'.order == c.order && c'.image == image;
    assert PixIn(c', s.row, s.chan, s.sect)[n] == c'.image(RowA(c', s.row, s.chan), Column(c'.order, s.chan, s.sect), n);
  }

  lemma TickShowsTaken(c: Cfg, n: nat, run: seq<Regs>, waves: seq<Wave>, ins: seq<In>, start: nat, t: nat, j: nat)
    requires Whole(c, run, waves, ins, start, t) && start <= j < t && n < c.lines == |ins[j].pix|
    ensures ShownOn(With(c, ImageTaken(c, run, ins, start, t)), n, run[j], ins[j])
  {
    if Takes(run[j]) {
      WordIsTaken(c, run, waves, ins, start, t, Presented(c, run[j].ctl), j, n);
      PixInIs(c, ImageTaken(c, run, ins, start, t), run[j].ctl, n);
    }
  }

  /** The words taken in the frame are the image so made. */
  lemma ShowsWhatIsTaken(c: Cfg, n: nat, run: seq<Regs>, waves: seq<Wave>, chains: seq<Chain>, ins: seq<In>, start: nat, t: nat)
    requires Span(c, n, run, waves, chains, ins, start, t) && OrderOk(c.order) && NoneDone(run, start, t)
    ensures Frame(With(c, ImageTaken(c, run, ins, start, t)), n, run, waves, chains, ins, start, t)
  {
    var image := ImageTaken(c, run, ins, start, t);
    forall j | start <= j < t
      ensures ShownOn(With(c, image), n, run[j], ins[j])
    {
      assert ChainTick(c, n, run, chains, ins, j);
      TickShowsTaken(c, n, run, waves, ins, start, t, j);
    }
    SameRun(c, image, run, waves, ins);
    SameChains(c, image, n, run, chains, ins);
  }

  /** With no phase latches, the fetch one sweep ahead and a straight channel order. */
  predicate Straight(c: Cfg) {
    && c.grammar.latchEn && c.grammar.phase == 0
    && OrderOk(c.order) && c.order.adv == 1 && c.order.xor == (if c.order.rev then 15 else 0)
  }

  /** A place in a driver's memory. */
  datatype Place = Place(row: int, chan: int, chip: int)

  /** The pixel shown at a place. */
  function PixAtPlace(p: Place): Pix { match p case Place(row, chan, chip) => Pix(row, 16 * chip + chan) }

  /** The place is one of the drivers', whose memory is at its start. */
  predicate OnGlass(c: Cfg, m: Memory, p: Place) {
    match p
    case Place(row, chan, chip) =>
      |m.cells| == 16 * c.rows && m.ptr == 0 && 0 <= row < c.rows && 0 <= chan < 16 && 0 <= chip < c.sections
  }

  /** The latches put the word v at the place, and bring the pointer back. */
  predicate HoldsWord(c: Cfg, m: Memory, latches: seq<seq<bool>>, p: Place, v: int) {
    match p
    case Place(row, chan, chip) =>
      && OnGlass(c, m, p)
      && var m', l := CommitAll(m, latches), 16 * row + chan;
         && m'.ptr == 0 && |m'.cells| == 16 * c.rows && |m'.cells[l]| == 16 * c.sections
         && m'.cells[l][16 * chip..16 * chip + 16] == Bits(v)
  }

  lemma GlassHoldsTheImage(c: Cfg, image: (int, int, int) -> int, n: nat, run: seq<Regs>, waves: seq<Wave>, chains: seq<Chain>,
                           ins: seq<In>, from: nat, t: nat, m: Memory, p: Place)
    requires Frame(With(c, image), n, run, waves, chains, ins, from, t) && Straight(c) && OnGlass(c, m, p)
    ensures var x := PixAtPlace(p); HoldsWord(c, m, chains[t + 1].latches, p, image(x.row, x.col, n))
  {
    GlassShowsTheImage(With(c, image), n, run, waves, chains, ins, from, t, m, p.row, p.chan, p.chip);
  }

  lemma TickOf(c: Cfg, n: nat, run: seq<Regs>, waves: seq<Wave>, chains: seq<Chain>, ins: seq<In>, start: nat, t: nat, x: Pix)
      returns (j: nat)
    requires Span(c, n, run, waves, chains, ins, start, t) && OrderOk(c.order) && NoneDone(run, start, t) && OnPanel(c, x)
    ensures start <= j < t && TakesAt(c, run, x, j) && n < |ins[j].pix|
    ensures ImageTaken(c, run, ins, start, t)(x.row, x.col, n) == ins[j].pix[n]
  {
    TakenOnce(c, run, waves, ins, start, t, x);
    j := SomeTick(c, run, start, t, x);
    assert ChainTick(c, n, run, chains, ins, j);
    WordIsTaken(c, run, waves, ins, start, t, x, j, n);
  }

  lemma PlaceOnPanel(c: Cfg, m: Memory, p: Place)
    requires OnGlass(c, m, p)
    ensures OnPanel(c, PixAtPlace(p))
  {
  }

  lemma GlassOfFrame(c: Cfg, n: nat, run: seq<Regs>, waves: seq<Wave>, chains: seq<Chain>, ins: seq<In>,
                     start: nat, t: nat, m: Memory, p: Place, v: int)
    requires Span(c, n, run, waves, chains, ins, start, t) && Straight(c) && NoneDone(run, start, t) && OnGlass(c, m, p)
    requires var x := PixAtPlace(p); v == ImageTaken(c, run, ins, start, t)(x.row, x.col, n)
    ensures HoldsWord(c, m, chains[t + 1].latches, p, v)
  {
    ShowsWhatIsTaken(c, n, run, waves, chains, ins, start, t);
    GlassHoldsTheImage(c, ImageTaken(c, run, ins, start, t), n, run, waves, chains, ins, start, t, m, p);
  }

  /** WHAT IS TAKEN IS ON THE GLASS. When a frame is done, each position of each driver holds the word that its
      line was given in a tick of that frame, the one that took the position's own row and column. */
  lemma GlassHoldsWhatIsTaken(c: Cfg, n: nat, run: seq<Regs>, waves: seq<Wave>, chains: seq<Chain>, ins: seq<In>,
                              from: nat, t: nat, m: Memory, p: Place) returns (j: nat)
    requires Span(c, n, run, waves, chains, ins, from, t) && Straight(c) && OnGlass(c, m, p)
    ensures from <= j < t && TakesAt(c, run, PixAtPlace(p), j) && n < |ins[j].pix|
    ensures HoldsWord(c, m, chains[t + 1].latches, p, ins[j].pix[n])
  {
    var start := LastStart(c, run, waves, ins, from, t);
    PlaceOnPanel(c, m, p);
    j := TickOf(c, n, run, waves, chains, ins, start, t, PixAtPlace(p));
    GlassOfFrame(c, n, run, waves, chains, ins, start, t, m, p, ins[j].pix[n]);
  }
}
