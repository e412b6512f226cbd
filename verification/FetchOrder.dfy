/** The order in which a frame asks for its pixels, and which position of each driver gets them. */
module FetchOrder {
  import opened Spwm

  predicate OrderOk(o: Order) { 0 <= o.xor < 16 && 0 <= o.adv < 8 }

  lemma Xor2Twice(a: int, x: int)
    requires 0 <= a < 4 && 0 <= x < 4
    ensures 0 <= Xor2(a, x) < 4 && Xor2(Xor2(a, x), x) == a && Xor2(a, Xor2(a, x)) == x
  {
  }

  lemma Xor3Twice(a: int, x: int)
    requires 0 <= a < 8 && 0 <= x < 8
    ensures 0 <= Xor3(a, x) < 8 && Xor3(Xor3(a, x), x) == a && Xor3(a, Xor3(a, x)) == x
  {
    Xor2Twice(Low(a, 4), Low(x, 4));
  }

  /** XOR is its own inverse. */
  lemma XorTwice(a: int, x: int)
    requires 0 <= a < 16 && 0 <= x < 16
    ensures 0 <= Xor4(a, x) < 16 && Xor4(Xor4(a, x), x) == a && Xor4(a, Xor4(a, x)) == x
  {
    Xor3Twice(Low(a, 8), Low(x, 8));
  }

  /** The channel counter that addresses channel `k` of a driver, before the sweep advance. */
  function ChannelOf(o: Order, k: int): int { if o.rev then 15 - Xor4(k, o.xor) else Xor4(k, o.xor) }

  /** The sweep that fetches channel `k` of row `r`. */
  function SweepOf(c: Cfg, r: int, k: int): int {
    var x := 16 * r + ChannelOf(c.order, k) - c.order.adv;
    if x < 0 then x + 16 * c.rows else x
  }

  lemma ChannelInverse(o: Order, chan: int)
    requires OrderOk(o) && 0 <= chan < 16
    ensures 0 <= ChanEff(o, chan) < 16 && ChannelOf(o, ChanEff(o, chan)) == ChanA(o, chan)
  {
    XorTwice(if o.rev then 15 - ChanA(o, chan) else ChanA(o, chan), o.xor);
  }

  lemma ChannelHit(o: Order, k: int, chan: int)
    requires OrderOk(o) && 0 <= k < 16 && ChanA(o, chan) == ChannelOf(o, k)
    ensures ChanEff(o, chan) == k
  {
    XorTwice(k, o.xor);
  }

  lemma SweepIndex(row: int, chan: int)
    requires 0 <= chan < 16
    ensures (16 * row + chan) / 16 == row && (16 * row + chan) % 16 == chan
  {
  }

  lemma ColumnIndex(sect: int, k: int)
    requires 0 <= k < 16
    ensures (16 * sect + k) / 16 == sect && (16 * sect + k) % 16 == k
  {
  }

  function ChanBack(o: Order, k: int): int {
    if ChannelOf(o, k) >= o.adv then ChannelOf(o, k) - o.adv else ChannelOf(o, k) - o.adv + 16
  }

  lemma ChanBackHits(o: Order, k: int)
    requires OrderOk(o) && 0 <= k < 16
    ensures 0 <= ChanBack(o, k) < 16 && ChanA(o, ChanBack(o, k)) == ChannelOf(o, k)
  {
    XorTwice(k, o.xor);
  }

  function RowBack(c: Cfg, r: int, k: int): int {
    if ChannelOf(c.order, k) >= c.order.adv then r else if r == 0 then c.rows - 1 else r - 1
  }

  lemma SweepOfBack(c: Cfg, r: int, k: int)
    requires 1 <= c.rows && OrderOk(c.order) && 0 <= r < c.rows && 0 <= k < 16
    ensures SweepOf(c, r, k) == 16 * RowBack(c, r, k) + ChanBack(c.order, k)
    ensures 0 <= RowBack(c, r, k) < c.rows && RowA(c, RowBack(c, r, k), ChanBack(c.order, k)) == r
  {
    ChanBackHits(c.order, k);
    XorTwice(k, c.order.xor);
  }

  lemma SweepHits(c: Cfg, r: int, k: int)
    requires 1 <= c.rows && OrderOk(c.order) && 0 <= r < c.rows && 0 <= k < 16
    ensures var l := SweepOf(c, r, k); 0 <= l < 16 * c.rows && RowA(c, l / 16, l % 16) == r && ChanEff(c.order, l % 16) == k
  {
    SweepOfBack(c, r, k);
    ChanBackHits(c.order, k);
    var row, chan := RowBack(c, r, k), ChanBack(c.order, k);
    SweepIndex(row, chan);
    ChannelHit(c.order, k, chan);
  }

  /** A FRAME READS EVERY PIXEL: for every setting of chan_rev, chan_xor and sweep_adv, each row and
      column is read by the sweep SweepOf names, at the section that holds the column. */
  lemma EveryPixelIsRead(c: Cfg, r: int, col: int)
    requires 1 <= c.sections && 1 <= c.rows && OrderOk(c.order) && 0 <= r < c.rows && 0 <= col < 16 * c.sections
    ensures var l := SweepOf(c, r, col % 16);
            && 0 <= l < 16 * c.rows
            && RowA(c, l / 16, l % 16) == r && Column(c.order, l % 16, col / 16) == col
  {
    SweepHits(c, r, col % 16);
  }

  lemma SweepBack(c: Cfg, row: int, chan: int)
    requires 1 <= c.rows && OrderOk(c.order) && 0 <= row < c.rows && 0 <= chan < 16
    ensures SweepOf(c, RowA(c, row, chan), ChanEff(c.order, chan)) == 16 * row + chan
  {
    ChannelInverse(c.order, chan);
  }

  /** ... AND READS IT ONCE: the sweep and the section can be told from the row and column. */
  lemma NoPixelIsReadTwice(c: Cfg, l: int, s: int)
    requires 1 <= c.sections && 1 <= c.rows && OrderOk(c.order) && 0 <= l < 16 * c.rows && 0 <= s < c.sections
    ensures var r, col := RowA(c, l / 16, l % 16), Column(c.order, l % 16, s);
            && 0 <= r < c.rows && 0 <= col < 16 * c.sections
            && SweepOf(c, r, col % 16) == l && col / 16 == s
  {
    ChannelInverse(c.order, l % 16);
    ColumnIndex(s, ChanEff(c.order, l % 16));
    SweepBack(c, l / 16, l % 16);
  }

  // --- Positions in the drivers -------------------------------------------------------------

  /** A driver that increments its pointer and then writes puts latch `l` here. */
  function WrittenBy(c: Cfg, l: int): int { if l == 16 * c.rows - 1 then 0 else l + 1 }

  /** Sweep `l` carries to section `s` the pixel of the very position it will be written to. */
  predicate OwnPixel(c: Cfg, l: int, s: int) {
    var p := WrittenBy(c, l);
    RowA(c, l / 16, l % 16) == p / 16 && Column(c.order, l % 16, s) == 16 * s + p % 16
  }

  lemma XorZero(a: int)
    requires 0 <= a < 16
    ensures Xor4(a, 0) == a && Xor4(15 - a, 15) == a
  {
  }

  lemma StraightChannel(o: Order, chan: int)
    requires OrderOk(o) && o.xor == (if o.rev then 15 else 0) && 0 <= chan < 16
    ensures ChanEff(o, chan) == ChanA(o, chan)
  {
    XorZero(ChanA(o, chan));
  }

  lemma AdvanceByOne(c: Cfg, l: int, s: int)
    requires 1 <= c.rows && OrderOk(c.order) && c.order.adv == 1 && c.order.xor == (if c.order.rev then 15 else 0)
    requires 0 <= l < 16 * c.rows
    ensures OwnPixel(c, l, s)
  {
    var row, chan := l / 16, l % 16;
    StraightChannel(c.order, chan);
    if chan < 15 {
      SweepIndex(row, chan + 1);
    } else if row < c.rows - 1 {
      SweepIndex(row + 1, 0);
    }
  }

  lemma ThreeEquations(z: int, x: int)
    requires 0 <= z < 8 && x == Xor4(z, 1) && x == Xor4(z + 1, 2) && x == Xor4(z + 3, 4)
    ensures z == 1 && x == 0
  {
  }

  lemma ThreeEquationsReversed(z: int, x: int)
    requires 0 <= z < 8 && x == Xor4(15 - z, 1) && x == Xor4(14 - z, 2) && x == Xor4(12 - z, 4)
    ensures z == 1 && x == 15
  {
  }

  lemma OwnChannel(c: Cfg, l: int)
    requires 1 <= c.rows && 0 <= l < 15 && OwnPixel(c, l, 0)
    ensures ChanEff(c.order, l) == l + 1
  {
  }

  lemma XorSolve(a: int, x: int, k: int)
    requires 0 <= a < 16 && 0 <= x < 16 && Xor4(a, x) == k
    ensures x == Xor4(a, k)
  {
    XorTwice(a, x);
  }

  /** What a first few channels say about the XOR setting. */
  lemma XorShows(o: Order, chan: int, k: int)
    requires OrderOk(o) && 0 <= chan <= 3 && ChanEff(o, chan) == k
    ensures o.xor == Xor4(if o.rev then 15 - o.adv - chan else o.adv + chan, k)
  {
    XorSolve(if o.rev then 15 - o.adv - chan else o.adv + chan, o.xor, k);
  }

  /** Three pixels alone give the settings away. */
  lemma SettingsShow(c: Cfg)
    requires 1 <= c.rows && OrderOk(c.order) && OwnPixel(c, 0, 0) && OwnPixel(c, 1, 0) && OwnPixel(c, 3, 0)
    ensures c.order.adv == 1 && c.order.xor == (if c.order.rev then 15 else 0)
  {
    OwnChannel(c, 0);
    OwnChannel(c, 1);
    OwnChannel(c, 3);
    XorShows(c.order, 0, 1);
    XorShows(c.order, 1, 2);
    XorShows(c.order, 3, 4);
    if c.order.rev { ThreeEquationsReversed(c.order.adv, c.order.xor); } else { ThreeEquations(c.order.adv, c.order.xor); }
  }

  /** WHICH SETTINGS SUIT THE CHIP: every position of every driver gets its own pixel exactly when the
      fetch runs one sweep ahead and the channel order is straight. */
  lemma SettingsExactly(c: Cfg)
    requires 1 <= c.sections && 1 <= c.rows && OrderOk(c.order)
    ensures (c.order.adv == 1 && c.order.xor == (if c.order.rev then 15 else 0))
        <==> forall l, s | 0 <= l < 16 * c.rows && 0 <= s < c.sections :: OwnPixel(c, l, s)
  {
    if c.order.adv == 1 && c.order.xor == (if c.order.rev then 15 else 0) {
      forall l, s | 0 <= l < 16 * c.rows && 0 <= s < c.sections
        ensures OwnPixel(c, l, s)
      {
        AdvanceByOne(c, l, s);
      }
    }
    if forall l, s | 0 <= l < 16 * c.rows && 0 <= s < c.sections :: OwnPixel(c, l, s) {
      SettingsShow(c);
    }
  }
}
