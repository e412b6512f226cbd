/** A fill fetches exactly the row it names, from whatever the memory holds when each read is taken: the
    invariant of one fetch unit. */
module FetchInv {
  import PS = PixelSource
  import LB = LineBuffer
  import opened FetchUnit
  import opened Routing

  // --- Wrapping arithmetic ------------------------------------------------------------------

  lemma WrapAdd(x: int, y: int)
    ensures (x % PS.W32 + y % PS.W32) % PS.W32 == (x + y) % PS.W32
    ensures (x % PS.W32 + y) % PS.W32 == (x + y) % PS.W32
  {
  }

  lemma WrapShift(a: int, q: int)
    ensures (a + PS.W32 * q) % PS.W32 == a % PS.W32
  {
  }

  /** Stepping a wrapped address by the wrapped difference of two offsets. */
  lemma WrapDiff(x: int, from: int, to: int, d: int)
    ensures ((x + from) % PS.W32 + (to % PS.W32 - from % PS.W32 + d) % PS.W32) % PS.W32 == (x + d + to) % PS.W32
  {
    var step := to % PS.W32 - from % PS.W32 + d;
    WrapAdd(x + from, step);
    assert x + from + step == x + d + to + PS.W32 * (from / PS.W32 - to / PS.W32);
    WrapShift(x + d + to, from / PS.W32 - to / PS.W32);
  }

  // --- Sending side -------------------------------------------------------------------------

  predicate OffsetsOk(c: PS.Cfg, o: seq<int>)
    requires PS.ValidCfg(c)
  {
    |o| == 4 && forall g | 0 <= g < 4 :: o[g] == c.offsets[g] % PS.W32
  }

  predicate StepsOk(c: PS.Cfg, s: PS.Steps)
    requires PS.ValidCfg(c)
  {
    var o, p := c.offsets, c.pairs;
    && s.s01 == (o[p.a1] % PS.W32 - o[p.a0] % PS.W32) % PS.W32
    && s.s10 == (o[p.a0] % PS.W32 - o[p.a1] % PS.W32 + 1) % PS.W32
    && s.s23 == (o[p.b1] % PS.W32 - o[p.b0] % PS.W32) % PS.W32
    && s.s32 == (o[p.b0] % PS.W32 - o[p.b1] % PS.W32 + 1) % PS.W32
  }

  function EntryAddress(c: PS.Cfg, base: int, row: int, e: Entry): int
    requires PS.ValidCfg(c) && 0 <= e.g < 4
  {
    PS.Address(c, base, row, e.col, e.g)
  }

  /** The registers of a block that has been accepted; `sent` is the column up to which requests have been. */
  predicate Accepted(c: PS.Cfg, t: PS.Sender, row: int, sent: int)
    requires PS.ValidCfg(c)
  {
    t.rowL == row && t.colL == sent - c.block && OffsetsOk(c, t.offs)
  }

  /** `sent` is the column up to which requests have been accepted in this fill. */
  predicate SenderOk(c: PS.Cfg, t: PS.Sender, f: From, b: Job, sent: int)
    requires PS.ValidCfg(c)
  {
    && |t.offs| == 4 && 0 <= t.j < 2 * c.block && 0 <= t.phase <= 1
    && (t.fsm != PS.Idle ==> Accepted(c, t, b.row, sent))
    && (t.fsm == PS.Mul ==> t.rowProduct == (b.row * c.width) % PS.W32 && t.j == 0 && t.phase == 0)
    && (t.fsm == PS.Adr0 ==> t.rowbase == (b.row * c.width) % PS.W32 && StepsOk(c, t.steps) && t.j == 0 && t.phase == 0)
    && (t.fsm == PS.Issue ==>
          && t.rowbase == (b.row * c.width) % PS.W32 && StepsOk(c, t.steps)
          && b.since < f.cur.at && b.since < f.first.at
          && t.first1 == PS.Address(c, f.first.value, b.row, t.colL, c.pairs.b0)
          && t.adr == EntryAddress(c, f.cur.value, b.row, EntryAt(c, t.colL, t.phase, t.j)))
  }

  /** Reads of the accepted block that have not been issued yet. */
  function Todo(c: PS.Cfg, t: PS.Sender, sent: int): seq<Entry>
    requires PS.ValidCfg(c)
  {
    if t.fsm == PS.Idle then [] else Entries(c, t.colL, t.phase, t.j, sent)
  }

  lemma FirstAddress(c: PS.Cfg, base: int, row: int, rowbase: int, col: int, g: int)
    requires PS.ValidCfg(c) && 0 <= g < 4 && rowbase == (row * c.width) % PS.W32
    ensures (base + rowbase + col + c.offsets[g] % PS.W32) % PS.W32 == PS.Address(c, base, row, col, g)
  {
    var x := row * c.width;
    WrapAdd(x, base + col + c.offsets[g] % PS.W32);
    WrapAdd(c.offsets[g], base + col + x);
  }

  lemma StepAddress(c: PS.Cfg, t: PS.Sender, base: int, row: int)
    requires PS.ValidCfg(c) && StepsOk(c, t.steps) && 0 <= t.j < 2 * c.block - 1 && 0 <= t.phase <= 1
    requires t.adr == EntryAddress(c, base, row, EntryAt(c, t.colL, t.phase, t.j))
    ensures (t.adr + PS.Step(t)) % PS.W32 == EntryAddress(c, base, row, EntryAt(c, t.colL, t.phase, t.j + 1))
  {
    var g, g' := Group(c.pairs, t.phase, t.j), Group(c.pairs, t.phase, t.j + 1);
    var d := t.j % 2;
    WrapDiff(base + row * c.width + t.colL + t.j / 2, c.offsets[g], c.offsets[g'], d);
    assert (t.j + 1) / 2 == t.j / 2 + d;
  }

  lemma SenderWaits(c: PS.Cfg, t: PS.Sender, f: From, i: PS.In, b: Job, sent: int, now: int)
    requires PS.ValidCfg(c) && SenderOk(c, t, f, b, sent) && b.since < now
    requires t.fsm == PS.Idle ==> !i.req
    requires t.fsm == PS.Issue ==> !i.cmdAck
    ensures SenderOk(c, PS.SenderNext(c, t, i), FromNext(c, t, f, i, now), b, sent)
    ensures Todo(c, PS.SenderNext(c, t, i), sent) == Todo(c, t, sent)
  {
    if t.fsm == PS.Adr0 {
      FirstAddress(c, i.base, b.row, t.rowbase, t.colL, c.pairs.a0);
    }
    if t.fsm != PS.Idle {
      if t.fsm != PS.Mul { FirstAddress(c, i.base, b.row, t.rowbase, t.colL, c.pairs.b0); }
    }
  }

  lemma SenderAccepts(c: PS.Cfg, t: PS.Sender, f: From, i: PS.In, b: Job, sent: int, now: int)
    requires PS.ValidCfg(c) && SenderOk(c, t, f, b, sent)
    requires t.fsm == PS.Idle && i.req && i.row == b.row && i.col == sent
    ensures SenderOk(c, PS.SenderNext(c, t, i), FromNext(c, t, f, i, now), b, sent + c.block)
    ensures Todo(c, PS.SenderNext(c, t, i), sent + c.block) == Entries(c, sent, 0, 0, sent + c.block)
  {
  }

  lemma TodoShrinks(c: PS.Cfg, t: PS.Sender, f: From, i: PS.In, b: Job, sent: int)
    requires PS.ValidCfg(c) && SenderOk(c, t, f, b, sent) && t.fsm == PS.Issue && i.cmdAck
    ensures var todo := Todo(c, t, sent);
            && todo != [] && todo[0] == EntryAt(c, t.colL, t.phase, t.j)
            && Todo(c, PS.SenderNext(c, t, i), sent) == todo[1..]
  {
    var n := PS.SenderNext(c, t, i);
    var todo := Todo(c, t, sent);
    assert todo == [EntryAt(c, t.colL, t.phase, t.j)] + After(c, t.colL, t.phase, t.j, sent);
    assert todo[1..] == After(c, t.colL, t.phase, t.j, sent);
    if t.j != 2 * c.block - 1 {
      assert n.fsm == PS.Issue && n.colL == t.colL && n.phase == t.phase && n.j == t.j + 1;
    } else if t.phase == 0 {
      assert n.fsm == PS.Issue && n.colL == t.colL && n.phase == 1 && n.j == 0;
    } else {
      assert n.fsm == PS.Idle;
      assert Entries(c, t.colL + c.block, 0, 0, sent) == [];
    }
  }

  lemma SenderIssues(c: PS.Cfg, t: PS.Sender, f: From, i: PS.In, b: Job, sent: int, now: int)
    requires PS.ValidCfg(c) && SenderOk(c, t, f, b, sent) && t.fsm == PS.Issue && i.cmdAck && b.since < now
    ensures SenderOk(c, PS.SenderNext(c, t, i), FromNext(c, t, f, i, now), b, sent)
  {
    FirstAddress(c, i.base, b.row, t.rowbase, t.colL, c.pairs.b0);
    if t.j < 2 * c.block - 1 {
      StepAddress(c, t, f.cur.value, b.row);
    }
  }

  /** ONE PAIR A RUN. The run-end mark is on a command exactly when the next one of the block, if there is one, is not
      of the same pair of groups. */
  lemma RunIsOnePair(c: PS.Cfg, t: PS.Sender, rx: PS.Receiver, f: From, b: Job, sent: int)
    requires PS.ValidCfg(c) && SenderOk(c, t, f, b, sent) && t.fsm == PS.Issue
    ensures var todo, first := Todo(c, t, sent), {c.pairs.a0, c.pairs.a1};
            todo != [] && (PS.MemLast(c, PS.Regs(t, rx)) <==> |todo| == 1 || (todo[0].g in first) != (todo[1].g in first))
  {
    var todo := Todo(c, t, sent);
    assert todo == [EntryAt(c, t.colL, t.phase, t.j)] + After(c, t.colL, t.phase, t.j, sent);
    if t.j != 2 * c.block - 1 {
      var next := EntryAt(c, t.colL, t.phase, t.j + 1);
      assert todo[1..] == Entries(c, t.colL, t.phase, t.j + 1, sent) == [next] + After(c, t.colL, t.phase, t.j + 1, sent);
      assert todo[1] == next;
    } else if t.phase == 0 {
      var next := EntryAt(c, t.colL, 1, 0);
      assert todo[1..] == Entries(c, t.colL, 1, 0, sent) == [next] + After(c, t.colL, 1, 0, sent);
      assert todo[1] == next;
    } else {
      assert Entries(c, t.colL + c.block, 0, 0, sent) == [];
    }
  }

  // --- Receiving side -----------------------------------------------------------------------

  /** `v` is the converted word of the read that answered the entry in this fill. */
  predicate Got(c: PS.Cfg, b: Job, words: map<Entry, Read>, e: Entry, v: int)
    requires |c.offsets| == 4
  {
    e in words && Answers(c, b, words[e], e) && v == c.conv(words[e].word)
  }

  /** All four groups of a column. */
  predicate PixelGot(c: PS.Cfg, b: Job, words: map<Entry, Read>, col: int, v: seq<int>)
    requires |c.offsets| == 4
  {
    |v| == 4 && forall g | 0 <= g < 4 :: Got(c, b, words, Entry(col, g), v[g])
  }

  lemma PixelKept(c: PS.Cfg, b: Job, words: map<Entry, Read>, col: int, v: seq<int>, e: Entry, r: Read)
    requires |c.offsets| == 4 && PixelGot(c, b, words, col, v) && e.col != col
    ensures PixelGot(c, b, words[e := r], col, v)
  {
    forall g | 0 <= g < 4
      ensures Got(c, b, words[e := r], Entry(col, g), v[g])
    {
      assert Got(c, b, words, Entry(col, g), v[g]);
    }
  }

  /** Both staged words of the block's k-th column. */
  predicate Staged(c: PS.Cfg, r: PS.Receiver, b: Job, words: map<Entry, Read>, col: int, k: int)
    requires PS.ValidCfg(c) && 0 <= k < |r.stage0| == |r.stage1|
  {
    && Got(c, b, words, Entry(col + k, c.pairs.a0), r.stage0[k])
    && Got(c, b, words, Entry(col + k, c.pairs.a1), r.stage1[k])
  }

  /** `col` is the first column of the block whose words are coming back. */
  predicate ReceiverOk(c: PS.Cfg, r: PS.Receiver, b: Job, words: map<Entry, Read>, col: int) {
    && PS.Sized(c, r) && 0 <= r.phase <= 1 && 0 <= r.w <= 1
    && (forall k | 0 <= k < c.block && (k < r.k || r.phase == 1) :: Staged(c, r, b, words, col, k))
    && (r.phase == 0 && r.w == 1 ==> Got(c, b, words, Entry(col + r.k, c.pairs.a0), r.stage0[r.k]))
    && (r.phase == 1 && r.w == 1 ==> Got(c, b, words, Entry(col + r.k, c.pairs.b0), r.st2))
  }

  predicate Publishes(r: PS.Receiver, ack: bool) { ack && r.phase == 1 && r.w == 1 }

  predicate BlockEnds(c: PS.Cfg, r: PS.Receiver, ack: bool) { Publishes(r, ack) && r.k == c.block - 1 }

  lemma PublishIsPixel(c: PS.Cfg, r: PS.Receiver, live: int, b: Job, words: map<Entry, Read>, col: int)
    requires PS.Sized(c, r)
    requires Got(c, b, words, Entry(col, c.pairs.a0), r.stage0[r.k]) && Got(c, b, words, Entry(col, c.pairs.a1), r.stage1[r.k])
    requires Got(c, b, words, Entry(col, c.pairs.b0), r.st2) && Got(c, b, words, Entry(col, c.pairs.b1), live)
    ensures PixelGot(c, b, words, col, PS.Publish(c, r, live))
  {
  }

  /** A word of another column or group leaves the staged ones alone. */
  lemma StagedKept(c: PS.Cfg, r: PS.Receiver, b: Job, words: map<Entry, Read>, col: int, k: int, e: Entry, read: Read)
    requires PS.ValidCfg(c) && 0 <= k < |r.stage0| == |r.stage1| && Staged(c, r, b, words, col, k)
    requires e.col != col + k || (e.g != c.pairs.a0 && e.g != c.pairs.a1)
    ensures Staged(c, r, b, words[e := read], col, k)
  {
  }

  /** What a returning word does to the receiver's registers, besides staging it. */
  lemma ReceiverSteps(c: PS.Cfg, r: PS.Receiver, i: PS.In, col: int, end: int)
    requires PS.Sized(c, r) && 0 <= r.phase <= 1 && 0 <= r.w <= 1 && i.ack && col < end
    ensures var r' := PS.ReceiverNext(c, r, i);
            var col' := if BlockEnds(c, r, true) then col + c.block else col;
            && PS.Sized(c, r') && 0 <= r'.phase <= 1 && 0 <= r'.w <= 1
            && r'.valid == Publishes(r, true)
            && col' + Published(r') == col + Published(r) + (if r'.valid then 1 else 0)
            && Entries(c, col', r'.phase, 2 * r'.k + r'.w, end) == After(c, col, r.phase, 2 * r.k + r.w, end)
            && ((r'.phase == 0 && r'.k == 0 && r'.w == 0) || col' == col)
  {
  }

  /** First phase: both words of each column are staged. */
  lemma ReceiverStages(c: PS.Cfg, r: PS.Receiver, i: PS.In, b: Job, words: map<Entry, Read>, col: int, read: Read)
    requires ReceiverOk(c, r, b, words, col) && i.ack && r.phase == 0
    requires var e := EntryAt(c, col, 0, 2 * r.k + r.w); Answers(c, b, read, e) && i.dat == read.word
    ensures var e := EntryAt(c, col, 0, 2 * r.k + r.w);
            ReceiverOk(c, PS.ReceiverNext(c, r, i), b, words[e := read], col)
  {
    var e := EntryAt(c, col, 0, 2 * r.k + r.w);
    var words' := words[e := read];
    assert e == Entry(col + r.k, if r.w == 0 then c.pairs.a0 else c.pairs.a1);
    var r' := PS.ReceiverNext(c, r, i);
    forall k | 0 <= k < c.block && (k < r'.k || r'.phase == 1)
      ensures Staged(c, r', b, words', col, k)
    {
      if k < r.k { assert Staged(c, r, b, words, col, k); }
    }
  }

  /** Second phase: the third word waits for the fourth, and then the column is published. */
  lemma ReceiverPublishes(c: PS.Cfg, r: PS.Receiver, i: PS.In, b: Job, words: map<Entry, Read>, col: int, read: Read)
    requires ReceiverOk(c, r, b, words, col) && i.ack && r.phase == 1
    requires var e := EntryAt(c, col, 1, 2 * r.k + r.w); Answers(c, b, read, e) && i.dat == read.word
    ensures var e := EntryAt(c, col, 1, 2 * r.k + r.w);
            var r' := PS.ReceiverNext(c, r, i);
            && (r'.phase == 1 ==> ReceiverOk(c, r', b, words[e := read], col))
            && (r'.valid ==> PixelGot(c, b, words[e := read], col + r.k, r'.held))
  {
    var e := EntryAt(c, col, 1, 2 * r.k + r.w);
    var words' := words[e := read];
    assert e == Entry(col + r.k, if r.w == 0 then c.pairs.b0 else c.pairs.b1);
    var r' := PS.ReceiverNext(c, r, i);
    forall k | 0 <= k < c.block
      ensures Staged(c, r', b, words', col, k)
    {
      assert Staged(c, r, b, words, col, k);
      StagedKept(c, r, b, words, col, k, e, read);
    }
    if r.w == 1 {
      assert Staged(c, r', b, words', col, r.k);
      PublishIsPixel(c, r, c.conv(i.dat), b, words', col + r.k);
    }
  }

  lemma ReceiverTakes(c: PS.Cfg, r: PS.Receiver, i: PS.In, b: Job, words: map<Entry, Read>, col: int, read: Read)
    requires ReceiverOk(c, r, b, words, col) && i.ack
    requires var e := EntryAt(c, col, r.phase, 2 * r.k + r.w); Answers(c, b, read, e) && i.dat == read.word
    ensures var e := EntryAt(c, col, r.phase, 2 * r.k + r.w);
            var r' := PS.ReceiverNext(c, r, i);
            && ReceiverOk(c, r', b, words[e := read], if BlockEnds(c, r, true) then col + c.block else col)
            && (r'.valid ==> PixelGot(c, b, words[e := read], col + r.k, r'.held))
  {
    if r.phase == 0 {
      ReceiverStages(c, r, i, b, words, col, read);
    } else {
      ReceiverPublishes(c, r, i, b, words, col, read);
    }
  }

  // --- The unit -----------------------------------------------------------------------------

  function Sent(q: LB.Regs, columns: int): int { if q.reqActive then q.reqCol else columns }

  predicate Stored(c: PS.Cfg, u: Unit)
    requires PS.ValidCfg(c) && |u.lb.mem| == 3 * c.columns && 0 <= u.lb.q.slot < 3
  {
    forall k | 0 <= k < u.lb.q.col && k < c.columns ::
      PixelGot(c, JobOf(u), u.fill.words, k, u.lb.mem[LB.Adr(BufferCfg(c), u.lb.q.slot, k)])
  }

  function JobOf(u: Unit): Job { Job(u.lb.q.row, u.fill.since) }

  /** A finished slot holds, column by column and group by group, the converted words that answered the reads
      of one fill of the row it claims to hold. */
  predicate SlotExact(c: PS.Cfg, u: Unit, slot: int)
    requires PS.ValidCfg(c) && |u.lb.mem| == 3 * c.columns && |u.lb.q.held| == |u.done| == 3 && 0 <= slot < 3
  {
    && 0 <= u.lb.q.held[slot] < c.rows
    && forall k | 0 <= k < c.columns ::
         PixelGot(c, Job(u.lb.q.held[slot], u.done[slot].since), u.done[slot].words, k, u.lb.mem[LB.Adr(BufferCfg(c), slot, k)])
  }

  /** The receiver is inside the columns requested so far, with its staging exact. */
  predicate Receiving(c: PS.Cfg, rx: PS.Receiver, b: Job, words: map<Entry, Read>, col: int, sent: int)
    requires PS.ValidCfg(c)
  {
    && ReceiverOk(c, rx, b, words, col)
    && 0 <= col <= sent && PS.Whole(col, c.block)
    && (col == sent ==> rx.phase == 0 && rx.k == 0 && rx.w == 0)
  }

  function Expected(c: PS.Cfg, rx: PS.Receiver, col: int, sent: int): seq<Entry>
    requires PS.ValidCfg(c)
  {
    Entries(c, col, rx.phase, 2 * rx.k + rx.w, sent)
  }

  /** Where a fill is: the first column still coming back, the column up to which requests have been
      accepted, and the reads in flight. */
  datatype Place = Place(col: int, sent: int, flight: seq<Read>)

  /** Sender, receiver and the reads between them agree on the place. */
  predicate Flow(c: PS.Cfg, tx: PS.Sender, f: From, rx: PS.Receiver, b: Job, words: map<Entry, Read>, p: Place)
    requires PS.ValidCfg(c)
  {
    match p
    case Place(col, sent, flight) =>
      && SenderOk(c, tx, f, b, sent) && Receiving(c, rx, b, words, col, sent)
      && Streams(c, b, Expected(c, rx, col, sent), flight, Todo(c, tx, sent))
  }

  /** What the buffer's registers promise during a fill. */
  predicate FillRegs(c: PS.Cfg, q: LB.Regs)
    requires PS.ValidCfg(c)
  {
    && 0 <= q.row < c.rows && 0 <= q.col < c.columns
    && (q.reqActive ==> 0 <= q.reqCol < c.columns && PS.Whole(q.reqCol, c.block))
  }

  predicate Filling(c: PS.Cfg, u: Unit, flight: seq<Read>)
    requires PS.ValidCfg(c)
  {
    var q, rx := u.lb.q, u.src.rx;
    && FillRegs(c, q)
    && Flow(c, u.src.tx, u.from, rx, JobOf(u), u.fill.words, Place(RecvCol(u), Sent(q, c.columns), flight))
    && (rx.valid ==> PixelGot(c, JobOf(u), u.fill.words, q.col, rx.held))
  }

  predicate Resting(c: PS.Cfg, u: Unit, flight: seq<Read>)
    requires PS.ValidCfg(c)
  {
    var tx, rx := u.src.tx, u.src.rx;
    && flight == [] && tx.fsm == PS.Idle && |tx.offs| == 4 && 0 <= tx.j < 2 * c.block && 0 <= tx.phase <= 1
    && PS.Sized(c, rx) && rx.phase == 0 && rx.k == 0 && rx.w == 0 && !rx.valid
  }

  predicate Sizes(c: PS.Cfg, u: Unit) {
    && ValidCfg(c)
    && |u.lb.mem| == 3 * c.columns && |u.lb.q.held| == |u.lb.q.ok| == |u.done| == 3
    && 0 <= u.lb.q.slot < 3 && 0 <= u.lb.q.rdSlot < 3 && 0 <= u.lb.q.col < c.columns
  }

  /** Stamps and the fill in progress are of the past. */
  predicate Dated(u: Unit, now: int) {
    u.from.cur.at < now && u.from.first.at < now && (u.lb.q.filling ==> u.fill.since < now)
  }

  predicate UnitInv(c: PS.Cfg, u: Unit, flight: seq<Read>, now: int) {
    && Sizes(c, u) && Dated(u, now)
    && (u.lb.q.filling ==> Filling(c, u, flight) && Stored(c, u) && !u.lb.q.ok[u.lb.q.slot])
    && (!u.lb.q.filling ==> Resting(c, u, flight))
    && (forall s | 0 <= s < 3 && u.lb.q.ok[s] :: SlotExact(c, u, s))
  }

  /** What the arbiter guarantees to a unit in one cycle (`Routing.OfStep`). */
  predicate Contract(c: PS.Cfg, u: Unit, i: In, flight: seq<Read>) {
    && (i.cmdAck ==> PS.MemReq(u.src))
    && (i.ack ==> flight != [] && i.read == flight[0])
    && 0 <= i.rowBase < c.rows && 0 <= i.row < c.rows && 0 <= i.col < c.columns
  }

  function FlightNext(c: PS.Cfg, u: Unit, i: In, flight: seq<Read>, k: int): seq<Read>
    requires Contract(c, u, i, flight)
  {
    Popped(flight, i.ack) + (if i.cmdAck then [Read(k, u.src.tx.adr, i.word, i.now, u.from.cur)] else [])
  }
}
