/** The three-slot line buffer: rows ahead of the serialiser are fetched into rotating slots. */
module LineBuffer {

  /** Row count, column count and columns per request. */
  datatype Cfg = Cfg(columns: int, rows: int, block: int)

  /** The buffer is only built for an even number of rows. */
  predicate ValidCfg(c: Cfg) { 1 <= c.block <= c.columns && 2 <= c.rows && c.rows % 2 == 0 }

  datatype Regs = Regs(prevRow: int, rdSlot: int, held: seq<int>, ok: seq<bool>,
                       filling: bool, slot: int, row: int, col: int, reqCol: int, reqActive: bool,
                       rdData: seq<int>)

  /** The registers and the slot memory. */
  datatype State = State(q: Regs, mem: seq<seq<int>>)

  /** `base` is the serialiser's row counter; `row` and `col` what it reads: `base` or the row after. */
  datatype In = In(base: int, row: int, col: int, reqAck: bool, valid: bool, channels: seq<int>)

  function Inc3(slot: int): int { if slot == 2 then 0 else slot + 1 }

  function NextRow(c: Cfg, row: int): int { if row == c.rows - 1 then 0 else row + 1 }

  predicate Shaped(c: Cfg, s: State, i: In) {
    && ValidCfg(c)
    && |s.q.held| == |s.q.ok| == 3 && 0 <= s.q.rdSlot < 3 && 0 <= s.q.slot < 3
    && 0 <= s.q.col < c.columns && |s.mem| == 3 * c.columns
    && 0 <= i.base < c.rows && 0 <= i.row < c.rows && 0 <= i.col < c.columns
  }

  function Reset(c: Cfg): State
    requires ValidCfg(c)
  {
    State(Regs(0, 0, [0, 0, 0], [false, false, false], false, 0, 0, 0, 0, false, []),
          seq(3 * c.columns, k => []))
  }

  /** The slot of the serialiser's row: it rotates in the very cycle the row counter moves. */
  function SlotNow(q: Regs, base: int): int { if base != q.prevRow then Inc3(q.rdSlot) else q.rdSlot }

  function Adr(c: Cfg, slot: int, col: int): int {
    if slot == 0 then col else if slot == 1 then c.columns + col else 2 * c.columns + col
  }

  predicate SlotHolds(q: Regs, slot: int, row: int)
    requires |q.held| == |q.ok| == 3 && 0 <= slot < 3
  {
    q.ok[slot] && q.held[slot] == row
  }

  predicate SrcReq(q: Regs) { q.filling && q.reqActive }

  /** The slot the serialiser reads this cycle. */
  function ReadSlot(q: Regs, i: In): int {
    if i.row != i.base then Inc3(SlotNow(q, i.base)) else SlotNow(q, i.base)
  }

  predicate Primed(q: Regs, i: In)
    requires |q.held| == |q.ok| == 3 && 0 <= q.rdSlot < 3
  {
    SlotHolds(q, ReadSlot(q, i), i.row)
  }

  function Start(q: Regs, row: int, slot: int): Regs
    requires |q.ok| == 3 && 0 <= slot < 3
  {
    q.(filling := true, row := row, slot := slot, col := 0, reqCol := 0, reqActive := true,
       ok := q.ok[slot := false])
  }

  function IdleNext(c: Cfg, q: Regs, base: int): Regs
    requires |q.held| == |q.ok| == 3 && 0 <= q.rdSlot < 3
  {
    var s1 := Inc3(SlotNow(q, base));
    var r1 := NextRow(c, base);
    if !SlotHolds(q, s1, r1) then Start(q, r1, s1)
    else if !SlotHolds(q, Inc3(s1), NextRow(c, r1)) then Start(q, NextRow(c, r1), Inc3(s1))
    else q
  }

  function RequestNext(c: Cfg, q: Regs, ack: bool): Regs {
    if !ack then q
    else if q.reqCol >= c.columns - c.block then q.(reqActive := false)
    else q.(reqCol := q.reqCol + c.block)
  }

  function StoreNext(c: Cfg, q: Regs, valid: bool): Regs
    requires |q.held| == |q.ok| == 3 && 0 <= q.slot < 3
  {
    if !valid then q
    else if q.col == c.columns - 1 then
      q.(filling := false, held := q.held[q.slot := q.row], ok := q.ok[q.slot := true])
    else q.(col := q.col + 1)
  }

  function QNext(c: Cfg, s: State, i: In): Regs
    requires Shaped(c, s, i)
  {
    var q := s.q;
    (if !q.filling then IdleNext(c, q, i.base) else StoreNext(c, RequestNext(c, q, i.reqAck), i.valid))
      .(prevRow := i.base, rdSlot := SlotNow(q, i.base), rdData := s.mem[Adr(c, ReadSlot(q, i), i.col)])
  }

  function Next(c: Cfg, s: State, i: In): State
    requires Shaped(c, s, i)
  {
    State(QNext(c, s, i),
          if i.valid && s.q.filling then s.mem[Adr(c, s.q.slot, s.q.col) := i.channels] else s.mem)
  }

  class Buffer {
    const c: Cfg
    var q: Regs
    const mem: array<seq<int>>

    function View(): State
      reads this, mem
    {
      State(q, mem[..])
    }

    constructor (c: Cfg)
      requires ValidCfg(c)
      ensures this.c == c && View() == Reset(c) && fresh(mem)
    {
      this.c := c;
      mem := new seq<int>[3 * c.columns](_ => []);
      q := Reset(c).q;
    }

    method Clock(i: In) returns (srcReq: bool, srcCol: int, srcRow: int, primed: bool)
      requires Shaped(c, View(), i)
      modifies this, mem
      ensures View() == Next(c, old(View()), i)
      ensures srcReq == SrcReq(old(q)) && srcCol == old(q).reqCol && srcRow == old(q).row
      ensures primed == Primed(old(q), i)
    {
      srcReq, srcCol, srcRow, primed := q.filling && q.reqActive, q.reqCol, q.row, Primed(q, i);
      var now := SlotNow(q, i.base);
      var n := q.(prevRow := i.base, rdSlot := now, rdData := mem[Adr(c, ReadSlot(q, i), i.col)]);
      if !q.filling {
        var s1, r1 := Inc3(now), NextRow(c, i.base);
        var s2, r2 := Inc3(s1), NextRow(c, r1);
        if !q.ok[s1] || q.held[s1] != r1 {
          n := Start(n, r1, s1);
        } else if !q.ok[s2] || q.held[s2] != r2 {
          n := Start(n, r2, s2);
        }
      } else {
        if i.reqAck {
          if q.reqCol >= c.columns - c.block {
            n := n.(reqActive := false);
          } else {
            n := n.(reqCol := q.reqCol + c.block);
          }
        }
        if i.valid {
          mem[Adr(c, q.slot, q.col)] := i.channels;
          if q.col == c.columns - 1 {
            n := n.(filling := false);
            n := n.(held := q.held[q.slot := q.row], ok := q.ok[q.slot := true]);
          } else {
            n := n.(col := q.col + 1);
          }
        }
      }
      q := n;
    }
  }
}
