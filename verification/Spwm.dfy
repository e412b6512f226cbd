/** The S-PWM output stage, one tick of the panel clock at a time: the command prefix, the pixel
    serialiser and the frame control that drives LAT and the data lines. */
module Spwm {

  const V_SYNC: int := 3
  const PRE_ACT_MID: int := 11
  const PRE_ACT_END: int := 14
  const REG_LATCH: int := 5
  const CLK_PAD: int := 8
  const CHANNELS: int := 16
  const MAX_REGS: int := 64
  const WORD: int := 0x1_0000
  const MSB: int := 0x8000

  /** Chips along the chain, scan rows, data lines; the chip grammar and the row-order settings; and the
      command table (a word per colour lane). `image` (row, column, line) is only what theorems compare
      the chips with: the stage does not read it. */
  datatype Cfg = Cfg(sections: int, rows: int, lines: int, grammar: Grammar, order: Order,
                     table: int -> seq<int>, image: (int, int, int) -> int)

  datatype Grammar = Grammar(slots: int, rotSlot: int, regCount: int, mid: bool, phase: int, latchEn: bool)

  datatype Order = Order(rev: bool, xor: int, adv: int)

  predicate Is16(v: int) { 0 <= v < WORD }

  ghost predicate ValidCfg(c: Cfg) {
    && 1 <= c.sections && 1 <= c.rows && 1 <= c.lines
    && 0 <= c.grammar.slots < 16 && 0 <= c.grammar.phase < 16
    && 0 <= c.order.xor < 16 && 0 <= c.order.adv < 8
    && (forall a :: |c.table(a)| == 3 && forall k | 0 <= k < 3 :: Is16(c.table(a)[k]))
  }

  function Columns(c: Cfg): int { CHANNELS * c.sections }

  // --- Registers ----------------------------------------------------------------------------

  datatype CmdFsm = CmdIdle | High | Pad
  datatype Cmd = Cmd(fsm: CmdFsm, count: int, padL: int)

  datatype Blk = Blk(busy: bool, bit: int, left: int, shift: seq<int>)

  datatype PreFsm = PreIdle | Command | CommandWait | Block | BlockWait
  datatype Pre = Pre(fsm: PreFsm, step: int, slot: int, regIndex: int, cmd: Cmd, blk: Blk)

  datatype Ser = Ser(busy: bool, count: int, shifts: seq<int>)

  datatype CtlFsm = Idle | Prefix | PrefixWait | Phase | Pixels | Drain | Hold
  datatype Ctl = Ctl(fsm: CtlFsm, primed: bool, phaseN: int, gap: int, sect: int, chan: int, row: int)

  datatype Regs = Regs(ctl: Ctl, pre: Pre, ser: Ser)

  function Reset(c: Cfg): Regs
    requires 1 <= c.lines
  {
    Regs(Ctl(Idle, false, 0, 0, 0, 0, 0),
         Pre(PreIdle, 0, 0, 0, Cmd(CmdIdle, 0, 0), Blk(false, 0, 0, [0, 0, 0])),
         Ser(false, 0, seq(c.lines, n => 0)))
  }

  function Shl(v: int): int { (2 * v) % WORD }

  function ShlAll(vs: seq<int>): seq<int> { seq(|vs|, k requires 0 <= k < |vs| => Shl(vs[k])) }

  // --- Command and register block -----------------------------------------------------------

  function CmdNext(s: Cmd, start: bool, length: int, pad: int): Cmd {
    match s.fsm
    case CmdIdle => if start then Cmd(High, length, pad) else s
    case High => if s.count != 1 then s.(count := s.count - 1)
                 else s.(count := s.padL, fsm := if s.padL == 0 then CmdIdle else Pad)
    case Pad => s.(count := s.count - 1, fsm := if s.count == 1 then CmdIdle else Pad)
  }

  function BlkNext(c: Cfg, s: Blk, start: bool, data: seq<int>): Blk {
    if !s.busy then (if start then Blk(true, 15, Columns(c), data) else s)
    else Blk(s.left != 1, if s.bit == 0 then 15 else s.bit - 1, s.left - 1,
             if s.bit == 0 then data else ShlAll(s.shift))
  }

  predicate BlkLat(s: Blk) { s.busy && s.left <= REG_LATCH }

  // --- Prefix -------------------------------------------------------------------------------

  function LastCmd(g: Grammar): int { if g.mid then 2 else 1 }

  /** `cfg_slots - 1` on four bits: a count of zero stands for sixteen slots. */
  function LastSlot(g: Grammar): int { if g.slots == 0 then 15 else g.slots - 1 }

  function Slots(g: Grammar): int { LastSlot(g) + 1 }

  function CmdLen(g: Grammar, step: int): int {
    if step == 0 then V_SYNC
    else if step == 1 then (if g.mid then PRE_ACT_MID else PRE_ACT_END)
    else if step == 2 then PRE_ACT_END
    else 0
  }

  /** The table row a slot sends: the rotating register, or the wrappers in order around it. */
  function TableRow(g: Grammar, slot: int, regIndex: int): int {
    if slot == g.rotSlot then regIndex
    else MAX_REGS + (if slot > g.rotSlot then slot - 1 else slot)
  }

  function PreNext(c: Cfg, s: Pre, start: bool): Pre {
    var g := c.grammar;
    var n := s.(cmd := CmdNext(s.cmd, s.fsm == Command, CmdLen(g, s.step), CLK_PAD),
                blk := BlkNext(c, s.blk, s.fsm == Block, c.table(TableRow(g, s.slot, s.regIndex))));
    match s.fsm
    case PreIdle => if start then n.(step := 0, slot := 0, fsm := Command) else n
    case Command => n.(fsm := CommandWait)
    case CommandWait =>
      if s.cmd.fsm != CmdIdle then n
      else if s.step == LastCmd(g) then n.(fsm := Block)
      else n.(step := s.step + 1, fsm := Command)
    case Block => n.(fsm := BlockWait)
    case BlockWait =>
      if s.blk.busy then n
      else if s.slot == LastSlot(g) then
        n.(regIndex := if s.regIndex == g.regCount - 1 then 0 else (s.regIndex + 1) % MAX_REGS, fsm := PreIdle)
      else n.(slot := (s.slot + 1) % 16, fsm := Block)
  }

  // --- Serialiser ---------------------------------------------------------------------------

  /** The cycle in which the next pixel is taken. */
  predicate Loads(s: Ser, run: bool) { run && (!s.busy || s.count == 1) }

  function SerNext(s: Ser, run: bool, pix: seq<int>): Ser {
    if Loads(s, run) then Ser(true, 16, pix)
    else if !s.busy then s
    else if s.count == 1 then s.(busy := false, count := 0)
    else s.(count := s.count - 1, shifts := ShlAll(s.shifts))
  }

  // --- Row order ----------------------------------------------------------------------------

  /** XOR of four-bit numbers, from the top bit down. */
  function Xor1(a: int, x: int): int { if a == x then 0 else 1 }

  function Low(a: int, w: int): int { if a >= w then a - w else a }

  function Xor2(a: int, x: int): int { Xor1(Low(a, 2), Low(x, 2)) + (if (a >= 2) == (x >= 2) then 0 else 2) }

  function Xor3(a: int, x: int): int { Xor2(Low(a, 4), Low(x, 4)) + (if (a >= 4) == (x >= 4) then 0 else 4) }

  function Xor4(a: int, x: int): int { Xor3(Low(a, 8), Low(x, 8)) + (if (a >= 8) == (x >= 8) then 0 else 8) }

  function ChanA(o: Order, chan: int): int { (chan + o.adv) % 16 }

  /** The row read: one further on when the advanced channel wraps. */
  function RowA(c: Cfg, row: int, chan: int): int {
    if chan + c.order.adv < 16 then row else if row == c.rows - 1 then 0 else row + 1
  }

  function ChanEff(o: Order, chan: int): int {
    Xor4(if o.rev then 15 - ChanA(o, chan) else ChanA(o, chan), o.xor)
  }

  function Column(o: Order, chan: int, sect: int): int { 16 * sect + ChanEff(o, chan) }

  /** The image at the row and column the stage presents, one value per line. */
  function PixIn(c: Cfg, row: int, chan: int, sect: int): seq<int>
    requires 1 <= c.lines
  {
    seq(c.lines, n => c.image(RowA(c, row, chan), Column(c.order, chan, sect), n))
  }

  // --- Frame control ------------------------------------------------------------------------

  function PixelNext(c: Cfg, s: Ctl): Ctl {
    if s.sect != c.sections - 1 then s.(sect := s.sect + 1)
    else if s.chan != CHANNELS - 1 then s.(sect := 0, chan := s.chan + 1)
    else if s.row != c.rows - 1 then s.(sect := 0, chan := 0, row := s.row + 1)
    else s.(sect := 0, chan := 0, fsm := Drain)
  }

  function CtlNext(c: Cfg, s: Ctl, start: bool, preBusy: bool, serBusy: bool, loading: bool): Ctl {
    match s.fsm
    case Idle => if start then s.(sect := 0, chan := 0, row := 0, fsm := Prefix) else s
    case Prefix => s.(primed := false, fsm := PrefixWait)
    case PrefixWait => if preBusy then s.(primed := true)
                       else s.(primed := true, phaseN := c.grammar.phase, gap := CHANNELS - 1, fsm := Phase)
    case Phase => if s.phaseN == 0 then s.(fsm := Pixels)
                  else if s.gap == 0 then s.(gap := CHANNELS - 1, phaseN := s.phaseN - 1)
                  else s.(gap := s.gap - 1)
    case Pixels => if loading then PixelNext(c, s) else s
    case Drain => if serBusy then s else s.(fsm := Hold)
    case Hold => if start then s.(sect := 0, chan := 0, row := 0, fsm := Prefix) else s
  }

  predicate PhaseLat(s: Ctl) { s.fsm == Phase && s.phaseN != 0 && s.gap == 0 }

  predicate DataLat(c: Cfg, s: Ctl, r: Ser) {
    c.grammar.latchEn && r.busy && r.count == 1 && s.sect == 0 && (s.fsm == Pixels || s.fsm == Drain)
  }

  predicate PreLat(p: Pre) { p.cmd.fsm == High || BlkLat(p.blk) }

  predicate Lat(c: Cfg, s: Regs) { PreLat(s.pre) || DataLat(c, s.ctl, s.ser) || PhaseLat(s.ctl) }

  /** One request while the prefix runs, then one with each load. */
  predicate PixReq(s: Regs) {
    (s.ctl.fsm == PrefixWait && !s.ctl.primed) || (s.ctl.fsm == Pixels && Loads(s.ser, true))
  }

  predicate FrameDone(s: Regs) { s.ctl.fsm == Drain && !s.ser.busy }

  /** The level on data line n: the prefix owns the lines while it is busy, lane by colour. */
  predicate Line(s: Regs, n: int)
    requires 0 <= n < |s.ser.shifts| && |s.pre.blk.shift| == 3
  {
    if s.pre.fsm != PreIdle then s.pre.blk.busy && s.pre.blk.shift[n % 3] >= MSB
    else s.ser.shifts[n] >= MSB
  }

  /** One tick's inputs: the start level and the pixel inputs, one value per line. */
  datatype In = In(start: bool, pix: seq<int>)

  function Next(c: Cfg, s: Regs, i: In): Regs {
    var run := s.ctl.fsm == Pixels;
    Regs(CtlNext(c, s.ctl, i.start, s.pre.fsm != PreIdle, s.ser.busy, Loads(s.ser, run)),
         PreNext(c, s.pre, s.ctl.fsm == Prefix),
         SerNext(s.ser, run, i.pix))
  }

  /** The stage as a clocked object. */
  class OutputStage {
    const c: Cfg
    var q: Regs

    constructor (c: Cfg)
      requires 1 <= c.lines
      ensures this.c == c && q == Reset(c)
    {
      this.c := c;
      q := Reset(c);
    }

    method ShiftAll(vs: seq<int>) returns (r: seq<int>)
      ensures r == ShlAll(vs)
    {
      r := [];
      for k := 0 to |vs|
        invariant r == ShlAll(vs[..k])
      {
        r := r + [(2 * vs[k]) % WORD];
      }
      assert vs[..|vs|] == vs;
    }

    method ClockCommand(start: bool, length: int, pad: int) returns (n: Cmd)
      ensures n == CmdNext(q.pre.cmd, start, length, pad)
    {
      var s := q.pre.cmd;
      n := s;
      match s.fsm {
        case CmdIdle =>
          if start { n := Cmd(High, length, pad); }
        case High =>
          n := n.(count := s.count - 1);
          if s.count == 1 {
            n := n.(count := s.padL);
            if s.padL == 0 { n := n.(fsm := CmdIdle); } else { n := n.(fsm := Pad); }
          }
        case Pad =>
          n := n.(count := s.count - 1);
          if s.count == 1 { n := n.(fsm := CmdIdle); }
      }
    }

    method ClockBlock(start: bool, data: seq<int>) returns (n: Blk)
      ensures n == BlkNext(c, q.pre.blk, start, data)
    {
      var s := q.pre.blk;
      n := s;
      if !s.busy {
        if start { n := Blk(true, 15, CHANNELS * c.sections, data); }
      } else {
        var shifted := ShiftAll(s.shift);
        n := n.(shift := shifted, left := s.left - 1);
        if s.bit == 0 {
          n := n.(shift := data);
          n := n.(bit := 15);
        } else {
          n := n.(bit := s.bit - 1);
        }
        if s.left == 1 { n := n.(busy := false); }
      }
    }

    method ClockPrefix(start: bool) returns (n: Pre)
      ensures n == PreNext(c, q.pre, start)
    {
      var s, g := q.pre, c.grammar;
      n := s;
      var cmd := ClockCommand(s.fsm == Command, CmdLen(g, s.step), CLK_PAD);
      var blk := ClockBlock(s.fsm == Block, c.table(TableRow(g, s.slot, s.regIndex)));
      match s.fsm {
        case PreIdle =>
          if start { n := n.(step := 0, slot := 0, fsm := Command); }
        case Command =>
          n := n.(fsm := CommandWait);
        case CommandWait =>
          if s.cmd.fsm == CmdIdle {
            if s.step == LastCmd(g) { n := n.(fsm := Block); } else { n := n.(step := s.step + 1, fsm := Command); }
          }
        case Block =>
          n := n.(fsm := BlockWait);
        case BlockWait =>
          if !s.blk.busy {
            if s.slot == LastSlot(g) {
              n := n.(regIndex := if s.regIndex == g.regCount - 1 then 0 else (s.regIndex + 1) % MAX_REGS);
              n := n.(fsm := PreIdle);
            } else {
              n := n.(slot := (s.slot + 1) % 16, fsm := Block);
            }
          }
      }
      n := n.(cmd := cmd, blk := blk);
    }

    method ClockSerialiser(run: bool, pix: seq<int>) returns (n: Ser, loading: bool)
      ensures n == SerNext(q.ser, run, pix) && loading == Loads(q.ser, run)
    {
      var s := q.ser;
      n, loading := s, false;
      if !s.busy {
        if run {
          loading := true;
          n := Ser(true, 16, pix);
        }
      } else {
        n := n.(count := s.count - 1);
        if s.count == 1 {
          if run {
            loading := true;
            n := n.(shifts := pix, count := 16);
          } else {
            n := n.(busy := false);
          }
        } else {
          var shifted := ShiftAll(s.shifts);
          n := n.(shifts := shifted);
        }
      }
    }

    method ClockControl(start: bool, preBusy: bool, serBusy: bool, loading: bool) returns (n: Ctl)
      ensures n == CtlNext(c, q.ctl, start, preBusy, serBusy, loading)
    {
      var s := q.ctl;
      n := s;
      match s.fsm {
        case Idle =>
          if start { n := n.(sect := 0, chan := 0, row := 0, fsm := Prefix); }
        case Prefix =>
          n := n.(primed := false, fsm := PrefixWait);
        case PrefixWait =>
          n := n.(primed := true);
          if !preBusy { n := n.(phaseN := c.grammar.phase, gap := CHANNELS - 1, fsm := Phase); }
        case Phase =>
          if s.phaseN == 0 {
            n := n.(fsm := Pixels);
          } else if s.gap == 0 {
            n := n.(gap := CHANNELS - 1, phaseN := s.phaseN - 1);
          } else {
            n := n.(gap := s.gap - 1);
          }
        case Pixels =>
          if loading {
            if s.sect == c.sections - 1 {
              n := n.(sect := 0);
              if s.chan == CHANNELS - 1 {
                n := n.(chan := 0);
                if s.row == c.rows - 1 { n := n.(fsm := Drain); } else { n := n.(row := s.row + 1); }
              } else {
                n := n.(chan := s.chan + 1);
              }
            } else {
              n := n.(sect := s.sect + 1);
            }
          }
        case Drain =>
          if !serBusy { n := n.(fsm := Hold); }
        case Hold =>
          if start { n := n.(sect := 0, chan := 0, row := 0, fsm := Prefix); }
      }
    }

    method Clock(i: In) returns (lat: bool, frameDone: bool, pixReq: bool)
      modifies this
      ensures q == Next(c, old(q), i)
      ensures lat == Lat(c, old(q)) && frameDone == FrameDone(old(q)) && pixReq == PixReq(old(q))
    {
      var s := q;
      lat := s.pre.cmd.fsm == High || (s.pre.blk.busy && s.pre.blk.left <= REG_LATCH)
             || DataLat(c, s.ctl, s.ser) || PhaseLat(s.ctl);
      frameDone := s.ctl.fsm == Drain && !s.ser.busy;
      var pre := ClockPrefix(s.ctl.fsm == Prefix);
      var ser, loading := ClockSerialiser(s.ctl.fsm == Pixels, i.pix);
      var ctl := ClockControl(i.start, s.pre.fsm != PreIdle, s.ser.busy, loading);
      pixReq := (s.ctl.fsm == PrefixWait && !s.ctl.primed) || (s.ctl.fsm == Pixels && loading);
      q := Regs(ctl, pre, ser);
    }
  }
}
