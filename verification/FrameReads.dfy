/** What one frame asks for: every row and column of the panel, once. */
module FrameReads {
  import opened Spwm
  import opened Waveform
  import opened FetchOrder

  /** A row and column read. */
  datatype Pix = Pix(row: int, col: int)

  predicate OnPanel(c: Cfg, x: Pix) { 0 <= x.row < c.rows && 0 <= x.col < Columns(c) }

  /** The pixel presented while sweep `l` stands at section `s`. */
  function PixAt(c: Cfg, l: int, s: int): Pix { Pix(RowA(c, l / 16, l % 16), Column(c.order, l % 16, s)) }

  // --- The order, and that it is complete ---------------------------------------------------

  /** The first `s` sections of sweep `l`. */
  function Sweep(c: Cfg, l: int, s: nat): seq<Pix> {
    if s == 0 then [] else Sweep(c, l, s - 1) + [PixAt(c, l, s - 1)]
  }

  /** The first `l` sweeps. */
  function Sweeps(c: Cfg, l: nat): seq<Pix>
    requires 0 <= c.sections
  {
    if l == 0 then [] else Sweeps(c, l - 1) + Sweep(c, l - 1, c.sections)
  }

  /** A pixel of the panel is at one sweep and one section. */
  lemma PixIsAt(c: Cfg, l: int, s: int, x: Pix)
    requires 1 <= c.sections && 1 <= c.rows && OrderOk(c.order) && 0 <= l < 16 * c.rows && 0 <= s < c.sections && OnPanel(c, x)
    ensures OnPanel(c, PixAt(c, l, s)) && (PixAt(c, l, s) == x <==> l == SweepOf(c, x.row, x.col % 16) && s == x.col / 16)
  {
    NoPixelIsReadTwice(c, l, s);
    EveryPixelIsRead(c, x.row, x.col);
  }

  predicate Hits(c: Cfg, x: Pix, at: (int, int), l: int, s: int) { PixAt(c, l, s) == x <==> (l, s) == at }

  /** The pixel x is presented at one sweep and section, within the first `n` sweeps. */
  predicate OnlyAt(c: Cfg, x: Pix, at: (int, int), n: int) {
    && 0 <= at.0 < n && 0 <= at.1 < c.sections
    && forall l, s | 0 <= l < n && 0 <= s < c.sections :: Hits(c, x, at, l, s)
  }

  function Count(xs: seq<Pix>, x: Pix): nat {
    if xs == [] then 0 else Count(xs[..|xs| - 1], x) + (if xs[|xs| - 1] == x then 1 else 0)
  }

  lemma {:induction false} CountIs(xs: seq<Pix>, x: Pix)
    ensures multiset(xs)[x] == Count(xs, x)
  {
    if xs != [] {
      CountIs(xs[..|xs| - 1], x);
      assert xs == xs[..|xs| - 1] + [xs[|xs| - 1]];
    }
  }

  lemma {:induction false} Append(a: seq<Pix>, b: seq<Pix>, x: Pix)
    ensures Count(a + b, x) == Count(a, x) + Count(b, x)
  {
    if b == [] {
      assert a + b == a;
    } else {
      Append(a, b[..|b| - 1], x);
      assert (a + b)[..|a + b| - 1] == a + b[..|b| - 1];
    }
  }

  lemma {:induction false} InSweep(c: Cfg, n: int, l: nat, s: nat, x: Pix, at: (int, int))
    requires l < n && s <= c.sections && OnlyAt(c, x, at, n)
    ensures Count(Sweep(c, l, s), x) == (if l == at.0 && at.1 < s then 1 else 0)
  {
    if s > 0 {
      InSweep(c, n, l, s - 1, x, at);
      assert Hits(c, x, at, l, s - 1);
      Append(Sweep(c, l, s - 1), [PixAt(c, l, s - 1)], x);
    }
  }

  lemma {:induction false} InSweeps(c: Cfg, n: int, l: nat, x: Pix, at: (int, int))
    requires l <= n && 0 <= c.sections && OnlyAt(c, x, at, n)
    ensures Count(Sweeps(c, l), x) == (if at.0 < l then 1 else 0)
  {
    if l > 0 {
      InSweeps(c, n, l - 1, x, at);
      InSweep(c, n, l - 1, c.sections, x, at);
      Append(Sweeps(c, l - 1), Sweep(c, l - 1, c.sections), x);
    }
  }

  lemma AllSweeps(c: Cfg, x: Pix)
    requires 1 <= c.sections && 1 <= c.rows && OrderOk(c.order) && OnPanel(c, x)
    ensures multiset(Sweeps(c, 16 * c.rows))[x] == 1
  {
    var at := (SweepOf(c, x.row, x.col % 16), x.col / 16);
    EveryPixelIsRead(c, x.row, x.col);
    forall l, s | 0 <= l < 16 * c.rows && 0 <= s < c.sections
      ensures Hits(c, x, at, l, s)
    {
      PixIsAt(c, l, s, x);
    }
    InSweeps(c, 16 * c.rows, 16 * c.rows, x, at);
    CountIs(Sweeps(c, 16 * c.rows), x);
  }

  predicate AllOnPanel(c: Cfg, xs: seq<Pix>) { forall i | 0 <= i < |xs| :: OnPanel(c, xs[i]) }

  lemma {:induction false} SweepOnPanel(c: Cfg, l: int, s: nat)
    requires 1 <= c.rows && OrderOk(c.order) && 0 <= l < 16 * c.rows && 1 <= c.sections && s <= c.sections
    ensures AllOnPanel(c, Sweep(c, l, s))
  {
    if s > 0 {
      SweepOnPanel(c, l, s - 1);
      NoPixelIsReadTwice(c, l, s - 1);
    }
  }

  lemma {:induction false} SweepsOnPanel(c: Cfg, l: nat)
    requires 1 <= c.rows && OrderOk(c.order) && l <= 16 * c.rows && 1 <= c.sections
    ensures AllOnPanel(c, Sweeps(c, l))
  {
    if l > 0 {
      SweepsOnPanel(c, l - 1);
      SweepOnPanel(c, l - 1, c.sections);
    }
  }

  // --- A frame of a run ---------------------------------------------------------------------

  /** The tick takes a word: its row and column are those presented. */
  predicate Takes(s: Regs) { s.ctl.fsm == Pixels && Loads(s.ser, true) }

  function Presented(c: Cfg, s: Ctl): Pix { Pix(RowA(c, s.row, s.chan), Column(c.order, s.chan, s.sect)) }

  /** The pixels taken in the ticks `from` to `t`, in order. */
  function PixelsTaken(c: Cfg, run: seq<Regs>, from: nat, t: nat): seq<Pix>
    requires from <= t <= |run|
  {
    if t == from then []
    else PixelsTaken(c, run, from, t - 1) + (if Takes(run[t - 1]) then [Presented(c, run[t - 1].ctl)] else [])
  }

  /** How far the order has been followed. */
  predicate Followed(c: Cfg, s: Ctl, taken: seq<Pix>) {
    && 1 <= c.sections && 1 <= c.rows
    && match s.fsm
       case Prefix => Home(s) && taken == []
       case PrefixWait => Home(s) && taken == []
       case Phase => Home(s) && taken == []
       case Pixels => Counters(c, s) && taken == Sweeps(c, 16 * s.row + s.chan) + Sweep(c, 16 * s.row + s.chan, s.sect)
       case Drain => taken == Sweeps(c, 16 * c.rows)
       case Idle => false
       case Hold => false
  }

  lemma PresentedAt(c: Cfg, s: Ctl)
    requires Counters(c, s)
    ensures Presented(c, s) == PixAt(c, 16 * s.row + s.chan, s.sect)
  {
    SweepIndex(s.row, s.chan);
  }

  lemma OneMore(c: Cfg, l: nat, s: nat)
    requires s < c.sections
    ensures var more := Sweeps(c, l) + Sweep(c, l, s) + [PixAt(c, l, s)];
            && more == Sweeps(c, l) + Sweep(c, l, s + 1)
            && (s == c.sections - 1 ==> more == Sweeps(c, l + 1) == Sweeps(c, l + 1) + Sweep(c, l + 1, 0))
  {
  }

  lemma TakeFollows(c: Cfg, s: Ctl, taken: seq<Pix>)
    requires Followed(c, s, taken) && s.fsm == Pixels
    ensures Followed(c, PixelNext(c, s), taken + [Presented(c, s)])
  {
    PresentedAt(c, s);
    OneMore(c, 16 * s.row + s.chan, s.sect);
  }

  lemma WaitFollows(c: Cfg, s: Regs, i: In, taken: seq<Pix>)
    requires Followed(c, s.ctl, taken) && !Takes(s) && !FrameDone(s)
    ensures Followed(c, Next(c, s, i).ctl, taken)
  {
    assert Sweeps(c, 0) + Sweep(c, 0, 0) == [];
  }

  lemma {:induction false} FrameFollows(c: Cfg, run: seq<Regs>, waves: seq<Wave>, ins: seq<In>, from: nat, t: nat)
    requires Buildable(c) && IsRun(c, run, waves, ins) && from <= t < |run| && run[from].ctl.fsm == Prefix
    requires forall u | from <= u < t :: !FrameDone(run[u])
    ensures Followed(c, run[t].ctl, PixelsTaken(c, run, from, t))
  {
    if t == from {
      RunAt(c, run, waves, ins, t);
    } else {
      FrameFollows(c, run, waves, ins, from, t - 1);
      assert TickAt(c, run, waves, ins, t - 1) && !FrameDone(run[t - 1]);
      var s, taken := run[t - 1], PixelsTaken(c, run, from, t - 1);
      if Takes(s) { TakeFollows(c, s.ctl, taken); } else { WaitFollows(c, s, ins[t - 1], taken); }
    }
  }

  /** EVERY PIXEL ONCE. From its start to the tick that ends it, for every setting of chan_rev, chan_xor and
      sweep_adv, a frame takes each row and column of the panel in exactly one tick, and nothing else. */
  lemma FrameTakesEachPixelOnce(c: Cfg, run: seq<Regs>, waves: seq<Wave>, ins: seq<In>, from: nat, t: nat, x: Pix)
    requires Buildable(c) && OrderOk(c.order) && IsRun(c, run, waves, ins)
    requires from <= t < |run| && run[from].ctl.fsm == Prefix && FrameDone(run[t])
    requires forall u | from <= u < t :: !FrameDone(run[u])
    ensures multiset(PixelsTaken(c, run, from, t))[x] == (if OnPanel(c, x) then 1 else 0)
  {
    FrameFollows(c, run, waves, ins, from, t);
    if OnPanel(c, x) {
      AllSweeps(c, x);
    } else {
      SweepsOnPanel(c, 16 * c.rows);
      assert x !in Sweeps(c, 16 * c.rows);
    }
  }
}
