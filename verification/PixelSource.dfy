/** The block-fetching pixel source: K columns of two groups, then K columns of the other two, with
    a stepped address register on the way out and staging memories on the way back. */
module PixelSource {

  const W32: int := 0x1_0000_0000

  /** Which groups share a DRAM row: (a0, a1) are read first, (b0, b1) second. */
  datatype Pairs = Pairs(a0: int, a1: int, b0: int, b1: int)

  /** Build and CSR configuration, constant over a run, with the uninterpreted gamma conversion of a
      returned word. */
  datatype Cfg = Cfg(columns: int, rows: int, block: int, width: int, offsets: seq<int>, pairs: Pairs,
                     conv: int -> int)

  predicate PairsOk(p: Pairs) {
    && 0 <= p.a0 < 4 && 0 <= p.a1 < 4 && 0 <= p.b0 < 4 && 0 <= p.b1 < 4
    && p.a0 != p.a1 && p.a0 != p.b0 && p.a0 != p.b1 && p.a1 != p.b0 && p.a1 != p.b1 && p.b0 != p.b1
  }

  /** `a` is a whole number of blocks of `k` columns. */
  predicate Whole(a: int, k: int)
    requires 1 <= k
    decreases a
  {
    a == 0 || (k <= a && Whole(a - k, k))
  }

  predicate ValidCfg(c: Cfg) {
    && 1 <= c.block <= c.columns && Whole(c.columns, c.block)
    && 2 <= c.rows && |c.offsets| == 4 && PairsOk(c.pairs)
  }

  /** Pair the four groups that lie in the same framebuffer row, by their strips' y origins. */
  function BlockPairs(y: seq<int>): Pairs
    requires |y| == 4
  {
    if y[0] == y[1] && y[2] == y[3] then Pairs(0, 1, 2, 3)
    else if y[0] == y[2] && y[1] == y[3] then Pairs(0, 2, 1, 3)
    else if y[0] == y[3] && y[1] == y[2] then Pairs(0, 3, 1, 2)
    else Pairs(0, 1, 2, 3)
  }

  /** Pairing never loses a group, pairs equal rows whenever the origins split into two pairs, and otherwise, or if
      they will do, takes neighbours. */
  lemma PairingIsComplete(y: seq<int>)
    requires |y| == 4
    ensures var p := BlockPairs(y);
            && PairsOk(p)
            && ((exists q: Pairs :: PairsOk(q) && y[q.a0] == y[q.a1] && y[q.b0] == y[q.b1])
                ==> y[p.a0] == y[p.a1] && y[p.b0] == y[p.b1])
            && (p == Pairs(0, 1, 2, 3) <==>
                (y[0] == y[1] && y[2] == y[3])
                || !exists q: Pairs :: PairsOk(q) && y[q.a0] == y[q.a1] && y[q.b0] == y[q.b1])
  {
    if q: Pairs :| PairsOk(q) && y[q.a0] == y[q.a1] && y[q.b0] == y[q.b1] {
      assert q.a0 in {0, 1, 2, 3} && q.a1 in {0, 1, 2, 3} && q.b0 in {0, 1, 2, 3} && q.b1 in {0, 1, 2, 3};
    }
    assert PairsOk(Pairs(0, 2, 1, 3)) && PairsOk(Pairs(0, 3, 1, 2));
  }

  /** Where a plain read finds column `col` of row `row` for group `g`. */
  function Address(c: Cfg, base: int, row: int, col: int, g: int): int
    requires |c.offsets| == 4 && 0 <= g < 4
  {
    (base + row * c.width + col + c.offsets[g]) % W32
  }

  // --- Registers ----------------------------------------------------------------------------

  datatype Fsm = Idle | Mul | Adr0 | Issue

  /** The address steps: first group to second, second to first of the next column, per phase. */
  datatype Steps = Steps(s01: int, s10: int, s23: int, s32: int)

  datatype Sender = Sender(fsm: Fsm, j: int, phase: int, adr: int, rowL: int, colL: int, rowbase: int,
                           rowProduct: int, offs: seq<int>, steps: Steps, first1: int)

  datatype Receiver = Receiver(phase: int, k: int, w: int, stage0: seq<int>, stage1: seq<int>, st2: int,
                               held: seq<int>, valid: bool)

  datatype Regs = Regs(tx: Sender, rx: Receiver)

  /** One cycle's inputs. `base` is the framebuffer base of the moment: the half on display can change. */
  datatype In = In(req: bool, row: int, col: int, cmdAck: bool, ack: bool, dat: int, base: int)

  function Reset(c: Cfg): Regs
    requires ValidCfg(c)
  {
    Regs(Sender(Idle, 0, 0, 0, 0, 0, 0, 0, [0, 0, 0, 0], Steps(0, 0, 0, 0), 0),
         Receiver(0, 0, 0, seq(c.block, k => 0), seq(c.block, k => 0), 0, [0, 0, 0, 0], false))
  }

  predicate ReqAck(s: Regs, i: In) { s.tx.fsm == Idle && i.req }

  predicate MemReq(s: Regs) { s.tx.fsm == Issue }

  predicate MemLast(c: Cfg, s: Regs) { s.tx.fsm == Issue && s.tx.j == 2 * c.block - 1 }

  function Step(t: Sender): int {
    if t.j % 2 == 1 then (if t.phase == 1 then t.steps.s32 else t.steps.s10)
    else (if t.phase == 1 then t.steps.s23 else t.steps.s01)
  }

  /** The registers loaded on every edge, whatever the state. */
  function Always(c: Cfg, t: Sender, i: In): Sender
    requires ValidCfg(c) && |t.offs| == 4
  {
    var o, p := t.offs, c.pairs;
    t.(rowProduct := (i.row * c.width) % W32,
       offs := [c.offsets[0] % W32, c.offsets[1] % W32, c.offsets[2] % W32, c.offsets[3] % W32],
       steps := Steps((o[p.a1] - o[p.a0]) % W32, (o[p.a0] - o[p.a1] + 1) % W32,
                      (o[p.b1] - o[p.b0]) % W32, (o[p.b0] - o[p.b1] + 1) % W32),
       first1 := (i.base + t.rowbase + t.colL + o[p.b0]) % W32)
  }

  function SenderNext(c: Cfg, t: Sender, i: In): Sender
    requires ValidCfg(c) && |t.offs| == 4
  {
    var n := Always(c, t, i);
    match t.fsm
    case Idle => if i.req then n.(rowL := i.row, colL := i.col, j := 0, phase := 0, fsm := Mul) else n
    case Mul => n.(rowbase := t.rowProduct, fsm := Adr0)
    case Adr0 => n.(adr := (i.base + t.rowbase + t.colL + t.offs[c.pairs.a0]) % W32, fsm := Issue)
    case Issue =>
      if !i.cmdAck then n
      else if t.j != 2 * c.block - 1 then n.(j := t.j + 1, adr := (t.adr + Step(t)) % W32)
      else if t.phase == 1 then n.(j := 0, phase := 0, fsm := Idle)
      else n.(j := 0, phase := 1, adr := t.first1)
  }

  predicate Sized(c: Cfg, r: Receiver) {
    ValidCfg(c) && |r.stage0| == |r.stage1| == c.block && |r.held| == 4 && 0 <= r.k < c.block
  }

  function Publish(c: Cfg, r: Receiver, live: int): seq<int>
    requires Sized(c, r)
  {
    var p := c.pairs;
    [0, 0, 0, 0][p.a0 := r.stage0[r.k]][p.a1 := r.stage1[r.k]][p.b0 := r.st2][p.b1 := live]
  }

  function ReceiverNext(c: Cfg, r: Receiver, i: In): Receiver
    requires Sized(c, r)
  {
    var live := c.conv(i.dat);
    var n := r.(valid := false);
    if !i.ack then n
    else if r.phase == 0 then
      (if r.w == 0 then n.(stage0 := r.stage0[r.k := live], w := 1)
       else if r.k == c.block - 1 then n.(stage1 := r.stage1[r.k := live], w := 0, k := 0, phase := 1)
       else n.(stage1 := r.stage1[r.k := live], w := 0, k := r.k + 1))
    else if r.w == 0 then n.(st2 := live, w := 1)
    else if r.k == c.block - 1 then n.(held := Publish(c, r, live), valid := true, w := 0, k := 0, phase := 0)
    else n.(held := Publish(c, r, live), valid := true, w := 0, k := r.k + 1)
  }

  function Next(c: Cfg, s: Regs, i: In): Regs
    requires Sized(c, s.rx) && |s.tx.offs| == 4
  {
    Regs(SenderNext(c, s.tx, i), ReceiverNext(c, s.rx, i))
  }

  /** The source as a clocked object. */
  class BlockSource {
    const c: Cfg
    var q: Regs

    constructor (c: Cfg)
      requires ValidCfg(c)
      ensures this.c == c && q == Reset(c)
    {
      this.c := c;
      q := Reset(c);
    }

    method ClockSender(i: In) returns (n: Sender)
      requires ValidCfg(c) && |q.tx.offs| == 4
      ensures n == SenderNext(c, q.tx, i)
    {
      n := Always(c, q.tx, i);
      var t := q.tx;
      match t.fsm {
        case Idle =>
          if i.req {
            n := n.(rowL := i.row, colL := i.col);
            n := n.(j := 0, phase := 0, fsm := Mul);
          }
        case Mul =>
          n := n.(rowbase := t.rowProduct, fsm := Adr0);
        case Adr0 =>
          n := n.(adr := (i.base + t.rowbase + t.colL + t.offs[c.pairs.a0]) % W32, fsm := Issue);
        case Issue =>
          if i.cmdAck {
            if t.j == 2 * c.block - 1 {
              n := n.(j := 0, phase := if t.phase == 1 then 0 else 1);
              if t.phase == 1 {
                n := n.(fsm := Idle);
              } else {
                n := n.(adr := t.first1);
              }
            } else {
              n := n.(j := t.j + 1, adr := (t.adr + Step(t)) % W32);
            }
          }
      }
    }

    method ClockReceiver(i: In) returns (n: Receiver)
      requires Sized(c, q.rx)
      ensures n == ReceiverNext(c, q.rx, i)
    {
      var r, live := q.rx, c.conv(i.dat);
      n := r.(valid := false);
      if i.ack {
        if r.phase == 0 {
          // The write enables of the two staging memories.
          if r.w == 0 { n := n.(stage0 := r.stage0[r.k := live]); } else { n := n.(stage1 := r.stage1[r.k := live]); }
          if r.w != 0 {
            n := n.(w := 0);
            if r.k == c.block - 1 { n := n.(k := 0, phase := 1); } else { n := n.(k := r.k + 1); }
          } else {
            n := n.(w := 1);
          }
        } else if r.w != 0 {
          n := n.(held := Publish(c, r, live), valid := true, w := 0);
          if r.k == c.block - 1 { n := n.(k := 0, phase := 0); } else { n := n.(k := r.k + 1); }
        } else {
          n := n.(st2 := live, w := 1);
        }
      }
    }

    method Clock(i: In) returns (reqAck: bool)
      requires Sized(c, q.rx) && |q.tx.offs| == 4
      modifies this
      ensures q == Next(c, old(q), i)
      ensures reqAck == ReqAck(old(q), i)
    {
      reqAck := q.tx.fsm == Idle && i.req;
      var tx := ClockSender(i);
      var rx := ClockReceiver(i);
      q := Regs(tx, rx);
    }
  }
}
