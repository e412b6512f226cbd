/** One output's fetch path: a line buffer driving a block source, against any schedule of command
    acceptances and returning words. */
module FetchUnit {
  import PS = PixelSource
  import LB = LineBuffer
  import opened Routing

  datatype Entry = Entry(col: int, g: int)

  /** The bases the sender's address register and its second-phase address were made from. */
  datatype From = From(cur: Stamp, first: Stamp)

  /** A fill: the cycle it was begun in, the one it ended in, and the read that answered each entry. */
  datatype Fill = Fill(since: int, until: int, words: map<Entry, Read>)

  /** Source and buffer; and, beside the hardware, where addresses came from, the fill in progress and the
      fill that each slot was last given by. */
  datatype Unit = Unit(src: PS.Regs, lb: LB.State, from: From, fill: Fill, done: seq<Fill>)

  /** The serialiser's position, what the arbiter says to this source this cycle, the framebuffer base, the
      word at the source's address, and the cycle's number. */
  datatype In = In(rowBase: int, row: int, col: int, cmdAck: bool, ack: bool, read: Read, base: int, word: int, now: int)

  function BufferCfg(c: PS.Cfg): LB.Cfg { LB.Cfg(c.columns, c.rows, c.block) }

  predicate ValidCfg(c: PS.Cfg) { PS.ValidCfg(c) && LB.ValidCfg(BufferCfg(c)) }

  function SourceIn(u: Unit, i: In): PS.In {
    PS.In(LB.SrcReq(u.lb.q), u.lb.q.row, u.lb.q.reqCol, i.cmdAck, i.ack, i.read.word, i.base)
  }

  function BufferIn(u: Unit, i: In): LB.In {
    LB.In(i.rowBase, i.row, i.col, PS.ReqAck(u.src, SourceIn(u, i)), u.src.rx.valid, u.src.rx.held)
  }

  predicate Shaped(c: PS.Cfg, u: Unit, i: In) {
    && PS.ValidCfg(c) && PS.Sized(c, u.src.rx) && |u.src.tx.offs| == 4 && |u.done| == 3
    && LB.Shaped(BufferCfg(c), u.lb, BufferIn(u, i))
  }

  /** The phase change takes over the address made in the cycle before. */
  function FromNext(c: PS.Cfg, t: PS.Sender, f: From, i: PS.In, now: int): From {
    From(if t.fsm == PS.Adr0 then Stamp(i.base, now)
         else if t.fsm == PS.Issue && i.cmdAck && t.j == 2 * c.block - 1 && t.phase == 0 then f.first
         else f.cur,
         Stamp(i.base, now))
  }

  function B(b: bool): int { if b then 1 else 0 }

  /** Columns already published in the block being received. */
  function Published(r: PS.Receiver): int { if r.phase == 1 then r.k else 0 }

  /** The first column of the block whose words are coming back. */
  function RecvCol(u: Unit): int { u.lb.q.col + B(u.src.rx.valid) - Published(u.src.rx) }

  /** The entry the next returning word answers. */
  function Awaited(c: PS.Cfg, u: Unit): Entry {
    EntryAt(c, RecvCol(u), u.src.rx.phase, 2 * u.src.rx.k + u.src.rx.w)
  }

  predicate Ends(c: PS.Cfg, u: Unit) { u.src.rx.valid && u.lb.q.col == c.columns - 1 }

  function FillNext(c: PS.Cfg, u: Unit, i: In): Fill {
    if !u.lb.q.filling then Fill(i.now, i.now, map[])
    else if i.ack then u.fill.(words := u.fill.words[Awaited(c, u) := i.read])
    else u.fill
  }

  function DoneNext(c: PS.Cfg, u: Unit, i: In): seq<Fill>
    requires 0 <= u.lb.q.slot < |u.done|
  {
    if u.lb.q.filling && Ends(c, u) then u.done[u.lb.q.slot := u.fill.(until := i.now)] else u.done
  }

  function Next(c: PS.Cfg, u: Unit, i: In): Unit
    requires Shaped(c, u, i)
  {
    Unit(PS.Next(c, u.src, SourceIn(u, i)), LB.Next(BufferCfg(c), u.lb, BufferIn(u, i)),
         FromNext(c, u.src.tx, u.from, SourceIn(u, i), i.now), FillNext(c, u, i), DoneNext(c, u, i))
  }

  const NEVER: Stamp := Stamp(0, -1)

  function Reset(c: PS.Cfg): Unit
    requires ValidCfg(c)
  {
    var none := Fill(0, 0, map[]);
    Unit(PS.Reset(c), LB.Reset(BufferCfg(c)), From(NEVER, NEVER), none, [none, none, none])
  }

  // --- The order in which a fill reads ------------------------------------------------------

  function Group(p: PS.Pairs, phase: int, j: int): int {
    if phase == 0 then (if j % 2 == 0 then p.a0 else p.a1) else (if j % 2 == 0 then p.b0 else p.b1)
  }

  function EntryAt(c: PS.Cfg, col: int, phase: int, j: int): Entry {
    Entry(col + j / 2, Group(c.pairs, phase, j))
  }

  /** The reads still to come from position (col, phase, j) up to column `end`. */
  function Entries(c: PS.Cfg, col: int, phase: int, j: int, end: int): seq<Entry>
    requires 1 <= c.block
    decreases end - col, 1 - phase, 2 * c.block - j
  {
    if col >= end then [] else [EntryAt(c, col, phase, j)] + After(c, col, phase, j, end)
  }

  /** The reads after the one at (col, phase, j). */
  function After(c: PS.Cfg, col: int, phase: int, j: int, end: int): seq<Entry>
    requires 1 <= c.block && col < end
    decreases end - col, 1 - phase, 2 * c.block - j, 0
  {
    if j + 1 < 2 * c.block then Entries(c, col, phase, j + 1, end)
    else if phase == 0 then Entries(c, col, 1, 0, end)
    else Entries(c, col + c.block, 0, 0, end)
  }

  /** Different multiples of the block are at least a block apart. */
  lemma {:induction false} WholeGap(a: int, b: int, k: int)
    requires k >= 1 && PS.Whole(a, k) && PS.Whole(b, k) && a < b
    ensures a + k <= b
    decreases b
  {
    if a > 0 { WholeGap(a - k, b - k, k); }
  }

  /** Reading up to `mid` and then from `mid` to `end` is reading up to `end`. */
  lemma {:induction false} EntriesSplit(c: PS.Cfg, col: int, phase: int, j: int, mid: int, end: int)
    requires 1 <= c.block && 0 <= phase <= 1 && 0 <= j < 2 * c.block
    requires PS.Whole(col, c.block) && PS.Whole(mid, c.block) && 0 <= col <= mid <= end
    requires col == mid ==> phase == 0 && j == 0
    ensures Entries(c, col, phase, j, end) == Entries(c, col, phase, j, mid) + Entries(c, mid, 0, 0, end)
    decreases mid - col, 1 - phase, 2 * c.block - j
  {
    if col < mid {
      if j + 1 < 2 * c.block {
        EntriesSplit(c, col, phase, j + 1, mid, end);
      } else if phase == 0 {
        EntriesSplit(c, col, 1, 0, mid, end);
      } else {
        WholeGap(col, mid, c.block);
        EntriesSplit(c, col + c.block, 0, 0, mid, end);
      }
      assert After(c, col, phase, j, end) == After(c, col, phase, j, mid) + Entries(c, mid, 0, 0, end);
    }
  }

  // --- The stream between sender and receiver -----------------------------------------------

  /** A fill's row, and the cycle it was begun in. */
  datatype Job = Job(row: int, since: int)

  /** A read of the entry, at the address made from a base seen since the fill began. */
  predicate Answers(c: PS.Cfg, b: Job, r: Read, e: Entry)
    requires |c.offsets| == 4
  {
    && 0 <= e.g < 4 && b.since < r.from.at < r.at
    && r.adr == PS.Address(c, r.from.value, b.row, e.col, e.g)
  }

  /** The reads in flight answer the head of the expected entries; the tail is still to be sent. */
  predicate Streams(c: PS.Cfg, b: Job, expected: seq<Entry>, flight: seq<Read>, todo: seq<Entry>)
    requires |c.offsets| == 4
    decreases |flight|
  {
    if flight == [] then expected == todo
    else expected != [] && Answers(c, b, flight[0], expected[0]) && Streams(c, b, expected[1..], flight[1..], todo)
  }

  lemma {:induction false} StreamIssue(c: PS.Cfg, b: Job, expected: seq<Entry>, flight: seq<Read>,
                                       todo: seq<Entry>, r: Read)
    requires |c.offsets| == 4 && Streams(c, b, expected, flight, todo)
    requires todo != [] && Answers(c, b, r, todo[0])
    ensures Streams(c, b, expected, flight + [r], todo[1..])
    decreases |flight|
  {
    if flight == [] {
      assert [r][1..] == [];
    } else {
      StreamIssue(c, b, expected[1..], flight[1..], todo, r);
      assert (flight + [r])[1..] == flight[1..] + [r];
    }
  }

  lemma {:induction false} StreamAccept(c: PS.Cfg, b: Job, expected: seq<Entry>, flight: seq<Read>, more: seq<Entry>)
    requires |c.offsets| == 4 && Streams(c, b, expected, flight, [])
    ensures Streams(c, b, expected + more, flight, more)
    decreases |flight|
  {
    if flight == [] {
      assert [] + more == more;
    } else {
      StreamAccept(c, b, expected[1..], flight[1..], more);
      assert (expected + more)[1..] == expected[1..] + more;
    }
  }
}
