/** One cycle of a fetch unit keeps its invariant, whatever the arbiter, the memory, the framebuffer base and
    the serialiser do. */
module FetchStep {
  import PS = PixelSource
  import LB = LineBuffer
  import opened FetchUnit
  import opened FetchInv
  import opened Routing

  /** The request pointer walks whole blocks and stops exactly at the last column. */
  lemma RequestWalk(c: PS.Cfg, q: LB.Regs, ack: bool)
    requires PS.ValidCfg(c)
    requires q.reqActive ==> 0 <= q.reqCol < c.columns && PS.Whole(q.reqCol, c.block)
    requires ack ==> q.reqActive
    ensures var n := LB.RequestNext(BufferCfg(c), q, ack);
            && Sent(n, c.columns) == Sent(q, c.columns) + (if ack then c.block else 0)
            && (n.reqActive ==> 0 <= n.reqCol < c.columns && PS.Whole(n.reqCol, c.block))
  {
    if ack { WholeGap(q.reqCol, c.columns, c.block); }
  }

  lemma SentIsWhole(c: PS.Cfg, q: LB.Regs)
    requires PS.ValidCfg(c)
    requires q.reqActive ==> 0 <= q.reqCol < c.columns && PS.Whole(q.reqCol, c.block)
    ensures PS.Whole(Sent(q, c.columns), c.block) && 0 <= Sent(q, c.columns) <= c.columns
  {
  }

  // --- Receiver -----------------------------------------------------------------------------

  function EntryOf(c: PS.Cfg, rx: PS.Receiver, col: int): Entry { EntryAt(c, col, rx.phase, 2 * rx.k + rx.w) }

  /** The fill's record after a word has come back, or none. */
  function WordsAfter(c: PS.Cfg, rx: PS.Receiver, words: map<Entry, Read>, col: int, ack: bool, read: Read): map<Entry, Read> {
    if ack then words[EntryOf(c, rx, col) := read] else words
  }

  function ColAfter(c: PS.Cfg, rx: PS.Receiver, ack: bool, col: int): int {
    if BlockEnds(c, rx, ack) then col + c.block else col
  }

  /** A word only comes back for a read the current fill still expects. */
  lemma AckIsExpected(c: PS.Cfg, rx: PS.Receiver, b: Job, words: map<Entry, Read>, col: int, sent: int,
                      flight: seq<Read>, todo: seq<Entry>)
    requires PS.ValidCfg(c) && Receiving(c, rx, b, words, col, sent) && PS.Whole(sent, c.block)
    requires Streams(c, b, Expected(c, rx, col, sent), flight, todo) && flight != []
    ensures col < sent && col + c.block <= sent
    ensures Answers(c, b, flight[0], EntryOf(c, rx, col))
    ensures Streams(c, b, After(c, col, rx.phase, 2 * rx.k + rx.w, sent), flight[1..], todo)
  {
    var expected := Expected(c, rx, col, sent);
    assert expected[1..] == After(c, col, rx.phase, 2 * rx.k + rx.w, sent);
    WholeGap(col, sent, c.block);
  }

  lemma TakesStaysInside(c: PS.Cfg, rx: PS.Receiver, i: PS.In, b: Job, words: map<Entry, Read>, col: int, sent: int, read: Read)
    requires ReceiverOk(c, rx, b, words, col) && i.ack
    requires 0 <= col && PS.Whole(col, c.block) && col + c.block <= sent
    requires Answers(c, b, read, EntryOf(c, rx, col)) && i.dat == read.word
    ensures var rx' := PS.ReceiverNext(c, rx, i);
            var col' := ColAfter(c, rx, true, col);
            && Receiving(c, rx', b, WordsAfter(c, rx, words, col, true, read), col', sent)
            && Expected(c, rx', col', sent) == After(c, col, rx.phase, 2 * rx.k + rx.w, sent)
  {
    ReceiverTakes(c, rx, i, b, words, col, read);
    ReceiverSteps(c, rx, i, col, sent);
    assert PS.Whole(col + c.block, c.block);
  }

  /** The receiving half of the cycle. */
  lemma ReceiverSide(c: PS.Cfg, rx: PS.Receiver, i: PS.In, b: Job, words: map<Entry, Read>, col: int, sent: int,
                     flight: seq<Read>, todo: seq<Entry>, read: Read)
    requires PS.ValidCfg(c) && Receiving(c, rx, b, words, col, sent) && PS.Whole(sent, c.block)
    requires Streams(c, b, Expected(c, rx, col, sent), flight, todo)
    requires i.ack ==> flight != [] && read == flight[0] && i.dat == read.word
    ensures var rx' := PS.ReceiverNext(c, rx, i);
            var col' := ColAfter(c, rx, i.ack, col);
            && Receiving(c, rx', b, WordsAfter(c, rx, words, col, i.ack, read), col', sent)
            && Streams(c, b, Expected(c, rx', col', sent), Popped(flight, i.ack), todo)
  {
    if i.ack {
      AckIsExpected(c, rx, b, words, col, sent, flight, todo);
      TakesStaysInside(c, rx, i, b, words, col, sent, read);
    } else {
      assert PS.ReceiverNext(c, rx, i) == rx.(valid := false);
      ReceiverRests(c, rx, i, b, words, col);
    }
  }

  lemma ReceiverRests(c: PS.Cfg, rx: PS.Receiver, i: PS.In, b: Job, words: map<Entry, Read>, col: int)
    requires ReceiverOk(c, rx, b, words, col) && !i.ack
    ensures ReceiverOk(c, PS.ReceiverNext(c, rx, i), b, words, col)
  {
    var rx' := PS.ReceiverNext(c, rx, i);
    forall k | 0 <= k < c.block && (k < rx.k || rx.phase == 1)
      ensures Staged(c, rx', b, words, col, k)
    {
      assert Staged(c, rx, b, words, col, k);
    }
  }

  /** What is published is the pixel. */
  lemma PublishedIsGot(c: PS.Cfg, rx: PS.Receiver, i: PS.In, b: Job, words: map<Entry, Read>, col: int, sent: int,
                       flight: seq<Read>, todo: seq<Entry>, read: Read)
    requires PS.ValidCfg(c) && Receiving(c, rx, b, words, col, sent) && PS.Whole(sent, c.block)
    requires Streams(c, b, Expected(c, rx, col, sent), flight, todo)
    requires i.ack && flight != [] && read == flight[0] && i.dat == read.word
    ensures var rx' := PS.ReceiverNext(c, rx, i);
            rx'.valid ==> PixelGot(c, b, WordsAfter(c, rx, words, col, true, read), col + Published(rx), rx'.held)
  {
    AckIsExpected(c, rx, b, words, col, sent, flight, todo);
    ReceiverTakes(c, rx, i, b, words, col, read);
  }

  // --- Sender ---------------------------------------------------------------------------------

  predicate Accepts(t: PS.Sender, i: PS.In) { t.fsm == PS.Idle && i.req }

  function SentAfter(c: PS.Cfg, t: PS.Sender, i: PS.In, sent: int): int {
    if Accepts(t, i) then sent + c.block else sent
  }

  /** The read command accepted this cycle, if any. */
  function Issued(t: PS.Sender, f: From, i: PS.In, k: int, word: int, now: int): seq<Read> {
    if i.cmdAck then [Read(k, t.adr, word, now, f.cur)] else []
  }

  /** The sending half of the cycle, on any stream that ends where requests have been accepted. */
  lemma SenderSide(c: PS.Cfg, t: PS.Sender, f: From, i: PS.In, b: Job, sent: int, left: seq<Read>,
                   col: int, phase: int, j: int, k: int, word: int, now: int)
    requires PS.ValidCfg(c) && SenderOk(c, t, f, b, sent) && PS.Whole(sent, c.block) && b.since < now && f.cur.at < now
    requires 0 <= phase <= 1 && 0 <= j < 2 * c.block && 0 <= col <= sent && PS.Whole(col, c.block)
    requires col == sent ==> phase == 0 && j == 0
    requires Streams(c, b, Entries(c, col, phase, j, sent), left, Todo(c, t, sent))
    requires (i.cmdAck ==> t.fsm == PS.Issue) && (Accepts(t, i) ==> i.row == b.row && i.col == sent)
    ensures var t' := PS.SenderNext(c, t, i);
            var sent' := SentAfter(c, t, i, sent);
            && SenderOk(c, t', FromNext(c, t, f, i, now), b, sent')
            && Streams(c, b, Entries(c, col, phase, j, sent'), left + Issued(t, f, i, k, word, now), Todo(c, t', sent'))
  {
    var expected := Entries(c, col, phase, j, sent);
    assert left + [] == left;
    if i.cmdAck {
      SenderIssues(c, t, f, i, b, sent, now);
      TodoShrinks(c, t, f, i, b, sent);
      StreamIssue(c, b, expected, left, Todo(c, t, sent), Read(k, t.adr, word, now, f.cur));
    } else if Accepts(t, i) {
      SenderAccepts(c, t, f, i, b, sent, now);
      EntriesSplit(c, col, phase, j, sent, sent + c.block);
      StreamAccept(c, b, expected, left, Entries(c, sent, 0, 0, sent + c.block));
    } else {
      SenderWaits(c, t, f, i, b, sent, now);
    }
  }

  /** The sending half, on the stream the receiving half leaves. */
  lemma SenderMoves(c: PS.Cfg, t: PS.Sender, f: From, rx: PS.Receiver, i: PS.In, b: Job, words: map<Entry, Read>,
                    col: int, sent: int, left: seq<Read>, k: int, word: int, now: int)
    requires PS.ValidCfg(c) && SenderOk(c, t, f, b, sent) && PS.Whole(sent, c.block) && b.since < now && f.cur.at < now
    requires Receiving(c, rx, b, words, col, sent)
    requires Streams(c, b, Expected(c, rx, col, sent), left, Todo(c, t, sent))
    requires (i.cmdAck ==> t.fsm == PS.Issue) && (Accepts(t, i) ==> i.row == b.row && i.col == sent)
    ensures var t' := PS.SenderNext(c, t, i);
            var sent' := SentAfter(c, t, i, sent);
            && SenderOk(c, t', FromNext(c, t, f, i, now), b, sent')
            && Streams(c, b, Expected(c, rx, col, sent'), left + Issued(t, f, i, k, word, now), Todo(c, t', sent'))
  {
    SenderSide(c, t, f, i, b, sent, left, col, rx.phase, 2 * rx.k + rx.w, k, word, now);
  }

  // --- Slots ----------------------------------------------------------------------------------

  lemma AdrDistinct(c: LB.Cfg, s: int, k: int, s': int, k': int)
    requires 0 <= s < 3 && 0 <= s' < 3 && 0 <= k < c.columns && 0 <= k' < c.columns
    ensures LB.Adr(c, s, k) == LB.Adr(c, s', k') ==> s == s' && k == k'
    ensures 0 <= LB.Adr(c, s, k) < 3 * c.columns
  {
  }

  lemma ShapedInv(c: PS.Cfg, u: Unit, i: In, flight: seq<Read>, now: int)
    requires UnitInv(c, u, flight, now) && Contract(c, u, i, flight)
    ensures Shaped(c, u, i)
  {
  }

  /** Writing a column of the slot being filled touches no other slot. */
  lemma OtherSlotsStored(c: PS.Cfg, u: Unit, i: In, flight: seq<Read>, now: int)
    requires UnitInv(c, u, flight, now) && Contract(c, u, i, flight) && u.lb.q.filling
    ensures Shaped(c, u, i)
    ensures var mem' := Next(c, u, i).lb.mem;
            && |mem'| == 3 * c.columns
            && (forall s, k | 0 <= s < 3 && s != u.lb.q.slot && 0 <= k < c.columns ::
                  mem'[LB.Adr(BufferCfg(c), s, k)] == u.lb.mem[LB.Adr(BufferCfg(c), s, k)])
  {
    ShapedInv(c, u, i, flight, now);
    var q, cfg := u.lb.q, BufferCfg(c);
    var mem' := Next(c, u, i).lb.mem;
    forall s, k | 0 <= s < 3 && s != q.slot && 0 <= k < c.columns
      ensures mem'[LB.Adr(cfg, s, k)] == u.lb.mem[LB.Adr(cfg, s, k)]
    {
      AdrDistinct(cfg, s, k, q.slot, q.col);
    }
  }

  /** The word that comes back is of no column stored or about to be. */
  lemma AwaitedIsAhead(c: PS.Cfg, u: Unit, flight: seq<Read>)
    requires Sizes(c, u) && Filling(c, u, flight)
    ensures Awaited(c, u).col >= u.lb.q.col + B(u.src.rx.valid)
  {
  }

  /** A stored column, or the one published, keeps its words whatever comes back. */
  lemma ColumnKept(c: PS.Cfg, u: Unit, i: In, flight: seq<Read>, k: int, v: seq<int>)
    requires Sizes(c, u) && Filling(c, u, flight) && u.lb.q.filling
    requires k < u.lb.q.col + B(u.src.rx.valid) && PixelGot(c, JobOf(u), u.fill.words, k, v)
    ensures PixelGot(c, JobOf(u), FillNext(c, u, i).words, k, v)
  {
    AwaitedIsAhead(c, u, flight);
    if i.ack { PixelKept(c, JobOf(u), u.fill.words, k, v, Awaited(c, u), i.read); }
  }

  /** The slot being filled, with the column published. */
  lemma StoreSide(c: PS.Cfg, u: Unit, i: In, flight: seq<Read>, now: int, k: int)
    requires UnitInv(c, u, flight, now) && Contract(c, u, i, flight) && u.lb.q.filling
    requires 0 <= k < u.lb.q.col + B(u.src.rx.valid)
    ensures Shaped(c, u, i) && |Next(c, u, i).lb.mem| == 3 * c.columns && k < c.columns
    ensures PixelGot(c, JobOf(u), FillNext(c, u, i).words, k, Next(c, u, i).lb.mem[LB.Adr(BufferCfg(c), u.lb.q.slot, k)])
  {
    ShapedInv(c, u, i, flight, now);
    var q, cfg := u.lb.q, BufferCfg(c);
    AdrDistinct(cfg, q.slot, k, q.slot, q.col);
    ColumnKept(c, u, i, flight, k, if k < q.col then u.lb.mem[LB.Adr(cfg, q.slot, k)] else u.src.rx.held);
  }

  /** The last column can only be published when every read has been answered. */
  lemma LastColumnIsLast(c: PS.Cfg, u: Unit, flight: seq<Read>, now: int)
    requires UnitInv(c, u, flight, now) && u.lb.q.filling && Ends(c, u)
    ensures flight == [] && u.src.tx.fsm == PS.Idle && !u.lb.q.reqActive
    ensures u.src.rx.phase == 0 && u.src.rx.k == 0 && u.src.rx.w == 0
  {
    var sent := Sent(u.lb.q, c.columns);
    SentIsWhole(c, u.lb.q);
    if RecvCol(u) < sent {
      WholeGap(RecvCol(u), sent, c.block);
    }
    assert RecvCol(u) == sent == c.columns;
  }

  // --- The unit -------------------------------------------------------------------------------

  /** The buffer's registers after a cycle of a fill. */
  lemma BufferMoves(c: PS.Cfg, u: Unit, i: In, flight: seq<Read>)
    requires Sizes(c, u) && FillRegs(c, u.lb.q) && |u.src.tx.offs| == 4 && PS.Sized(c, u.src.rx)
    requires Contract(c, u, i, flight) && u.lb.q.filling
    ensures Shaped(c, u, i)
    ensures var q, q' := u.lb.q, Next(c, u, i).lb.q;
            && q'.row == q.row && q'.slot == q.slot && |q'.held| == |q'.ok| == 3 && 0 <= q'.rdSlot < 3
            && Sent(q', c.columns) == Sent(q, c.columns) + (if Accepts(u.src.tx, SourceIn(u, i)) then c.block else 0)
            && (q'.reqActive ==> 0 <= q'.reqCol < c.columns && PS.Whole(q'.reqCol, c.block))
            && (if Ends(c, u) then !q'.filling && q'.held == q.held[q.slot := q.row] && q'.ok == q.ok[q.slot := true]
                                   && q'.col == q.col
                else q'.filling && q'.held == q.held && q'.ok == q.ok && q'.col == q.col + B(u.src.rx.valid))
  {
    RequestWalk(c, u.lb.q, PS.ReqAck(u.src, SourceIn(u, i)));
  }

  lemma OtherSlotsKept(c: PS.Cfg, u: Unit, i: In, flight: seq<Read>, now: int, s: int)
    requires UnitInv(c, u, flight, now) && Contract(c, u, i, flight) && u.lb.q.filling
    requires 0 <= s < 3 && s != u.lb.q.slot && u.lb.q.ok[s]
    ensures Shaped(c, u, i) && Sizes(c, Next(c, u, i)) && SlotExact(c, Next(c, u, i), s)
  {
    BufferMoves(c, u, i, flight);
    OtherSlotsStored(c, u, i, flight, now);
    assert SlotExact(c, u, s);
    var u' := Next(c, u, i);
    assert u'.done[s] == u.done[s] && u'.lb.q.held[s] == u.lb.q.held[s];
    forall k | 0 <= k < c.columns
      ensures PixelGot(c, Job(u'.lb.q.held[s], u'.done[s].since), u'.done[s].words, k, u'.lb.mem[LB.Adr(BufferCfg(c), s, k)])
    {
    }
  }

  function FlightAfter(t: PS.Sender, f: From, i: PS.In, flight: seq<Read>, k: int, word: int, now: int): seq<Read>
    requires i.ack ==> flight != []
  {
    Popped(flight, i.ack) + Issued(t, f, i, k, word, now)
  }

  lemma ReceivingGrows(c: PS.Cfg, rx: PS.Receiver, b: Job, words: map<Entry, Read>, col: int, sent: int, more: int)
    requires PS.ValidCfg(c) && Receiving(c, rx, b, words, col, sent) && sent <= more
    ensures Receiving(c, rx, b, words, col, more)
  {
  }

  /** Both halves of the source in one cycle, from (tx, rx) to (tx', rx'). */
  lemma SourceMoves(c: PS.Cfg, tx: PS.Sender, f: From, rx: PS.Receiver, i: PS.In, b: Job, words: map<Entry, Read>, p: Place,
                    read: Read, k: int, word: int, now: int, tx': PS.Sender, rx': PS.Receiver, p': Place)
    requires PS.ValidCfg(c) && Flow(c, tx, f, rx, b, words, p) && PS.Whole(p.sent, c.block) && b.since < now && f.cur.at < now
    requires i.ack ==> p.flight != [] && read == p.flight[0] && i.dat == read.word
    requires (i.cmdAck ==> tx.fsm == PS.Issue) && (Accepts(tx, i) ==> i.row == b.row && i.col == p.sent)
    requires tx' == PS.SenderNext(c, tx, i) && rx' == PS.ReceiverNext(c, rx, i)
    requires p' == Place(ColAfter(c, rx, i.ack, p.col), SentAfter(c, tx, i, p.sent), FlightAfter(tx, f, i, p.flight, k, word, now))
    ensures Flow(c, tx', FromNext(c, tx, f, i, now), rx', b, WordsAfter(c, rx, words, p.col, i.ack, read), p')
  {
    var words' := WordsAfter(c, rx, words, p.col, i.ack, read);
    ReceiverSide(c, rx, i, b, words, p.col, p.sent, p.flight, Todo(c, tx, p.sent), read);
    SenderMoves(c, tx, f, rx', i, b, words', p'.col, p.sent, Popped(p.flight, i.ack), k, word, now);
    ReceivingGrows(c, rx', b, words', p'.col, p.sent, p'.sent);
  }

  /** A column published is a column further on. */
  lemma ColumnsAddUp(c: PS.Cfg, rx: PS.Receiver, i: PS.In)
    requires PS.Sized(c, rx) && 0 <= rx.phase <= 1 && 0 <= rx.w <= 1
    ensures var rx' := PS.ReceiverNext(c, rx, i);
            ColAfter(c, rx, i.ack, 0) + Published(rx') == Published(rx) + B(rx'.valid)
  {
  }

  /** Source and bookkeeping after a cycle. */
  lemma SourceOfNext(c: PS.Cfg, u: Unit, i: In)
    requires Shaped(c, u, i) && u.lb.q.filling
    ensures var u', si := Next(c, u, i), SourceIn(u, i);
            && u'.src.tx == PS.SenderNext(c, u.src.tx, si) && u'.src.rx == PS.ReceiverNext(c, u.src.rx, si)
            && u'.from == FromNext(c, u.src.tx, u.from, si, i.now) && u'.fill.since == u.fill.since
            && u'.fill.words == WordsAfter(c, u.src.rx, u.fill.words, RecvCol(u), i.ack, i.read)
  {
  }

  function PlaceOf(c: PS.Cfg, u: Unit, flight: seq<Read>): Place { Place(RecvCol(u), Sent(u.lb.q, c.columns), flight) }

  /** Where the fill is after the cycle. */
  lemma PlaceMoves(c: PS.Cfg, u: Unit, i: In, flight: seq<Read>, k: int)
    requires Sizes(c, u) && Filling(c, u, flight) && Contract(c, u, i, flight) && u.lb.q.filling && !Ends(c, u)
    ensures Shaped(c, u, i)
    ensures var u', tx, rx, si, p := Next(c, u, i), u.src.tx, u.src.rx, SourceIn(u, i), PlaceOf(c, u, flight);
            && FillRegs(c, u'.lb.q) && JobOf(u') == JobOf(u)
            && PlaceOf(c, u', FlightNext(c, u, i, flight, k))
               == Place(ColAfter(c, rx, i.ack, p.col), SentAfter(c, tx, si, p.sent), FlightAfter(tx, u.from, si, flight, k, i.word, i.now))
  {
    BufferMoves(c, u, i, flight);
    SourceOfNext(c, u, i);
    ColumnsAddUp(c, u.src.rx, SourceIn(u, i));
  }

  lemma FlowMoves(c: PS.Cfg, u: Unit, i: In, flight: seq<Read>, k: int)
    requires Sizes(c, u) && Filling(c, u, flight) && Contract(c, u, i, flight) && Dated(u, i.now)
    requires u.lb.q.filling && !Ends(c, u)
    ensures Shaped(c, u, i)
    ensures var u' := Next(c, u, i);
            Flow(c, u'.src.tx, u'.from, u'.src.rx, JobOf(u), u'.fill.words, PlaceOf(c, u', FlightNext(c, u, i, flight, k)))
  {
    PlaceMoves(c, u, i, flight, k);
    SourceOfNext(c, u, i);
    SentIsWhole(c, u.lb.q);
    var u', si := Next(c, u, i), SourceIn(u, i);
    SourceMoves(c, u.src.tx, u.from, u.src.rx, si, JobOf(u), u.fill.words, PlaceOf(c, u, flight), i.read, k, i.word, i.now,
                u'.src.tx, u'.src.rx, PlaceOf(c, u', FlightNext(c, u, i, flight, k)));
  }

  lemma HeldIsGot(c: PS.Cfg, u: Unit, i: In, flight: seq<Read>)
    requires Sizes(c, u) && Filling(c, u, flight) && Contract(c, u, i, flight)
    ensures var rx, rx' := u.src.rx, PS.ReceiverNext(c, u.src.rx, SourceIn(u, i));
            rx'.valid ==> PixelGot(c, JobOf(u), WordsAfter(c, rx, u.fill.words, RecvCol(u), i.ack, i.read),
                                   RecvCol(u) + Published(rx), rx'.held)
  {
    var q := u.lb.q;
    SentIsWhole(c, q);
    if i.ack {
      PublishedIsGot(c, u.src.rx, SourceIn(u, i), JobOf(u), u.fill.words, RecvCol(u), Sent(q, c.columns), flight,
                     Todo(c, u.src.tx, Sent(q, c.columns)), i.read);
    }
  }

  lemma HeldMoves(c: PS.Cfg, u: Unit, i: In, flight: seq<Read>)
    requires Sizes(c, u) && Filling(c, u, flight) && Contract(c, u, i, flight) && u.lb.q.filling && !Ends(c, u)
    ensures Shaped(c, u, i)
    ensures var u' := Next(c, u, i);
            u'.src.rx.valid ==> PixelGot(c, JobOf(u), u'.fill.words, u'.lb.q.col, u'.src.rx.held)
  {
    BufferMoves(c, u, i, flight);
    SourceOfNext(c, u, i);
    HeldIsGot(c, u, i, flight);
  }

  lemma FillStaysOnRow(c: PS.Cfg, u: Unit, i: In, flight: seq<Read>, k: int)
    requires Sizes(c, u) && Filling(c, u, flight) && Contract(c, u, i, flight) && Dated(u, i.now)
    requires u.lb.q.filling && !Ends(c, u)
    ensures Shaped(c, u, i) && Filling(c, Next(c, u, i), FlightNext(c, u, i, flight, k))
  {
    PlaceMoves(c, u, i, flight, k);
    FlowMoves(c, u, i, flight, k);
    HeldMoves(c, u, i, flight);
  }

  lemma DatedMoves(c: PS.Cfg, u: Unit, i: In, flight: seq<Read>)
    requires UnitInv(c, u, flight, i.now) && Contract(c, u, i, flight)
    ensures Shaped(c, u, i) && Dated(Next(c, u, i), i.now + 1)
  {
  }

  lemma StoredMoves(c: PS.Cfg, u: Unit, i: In, flight: seq<Read>)
    requires UnitInv(c, u, flight, i.now) && Contract(c, u, i, flight) && u.lb.q.filling && !Ends(c, u)
    ensures Shaped(c, u, i) && Sizes(c, Next(c, u, i)) && Stored(c, Next(c, u, i))
  {
    BufferMoves(c, u, i, flight);
    OtherSlotsStored(c, u, i, flight, i.now);
    var u' := Next(c, u, i);
    assert JobOf(u') == JobOf(u) && u'.fill.words == FillNext(c, u, i).words && u'.lb.q.slot == u.lb.q.slot;
    forall j | 0 <= j < u'.lb.q.col && j < c.columns
      ensures PixelGot(c, JobOf(u'), u'.fill.words, j, u'.lb.mem[LB.Adr(BufferCfg(c), u'.lb.q.slot, j)])
    {
      StoreSide(c, u, i, flight, i.now, j);
    }
  }

  lemma FillGoesOn(c: PS.Cfg, u: Unit, i: In, flight: seq<Read>, k: int)
    requires UnitInv(c, u, flight, i.now) && Contract(c, u, i, flight) && u.lb.q.filling && !Ends(c, u)
    ensures Shaped(c, u, i) && UnitInv(c, Next(c, u, i), FlightNext(c, u, i, flight, k), i.now + 1)
  {
    BufferMoves(c, u, i, flight);
    FillStaysOnRow(c, u, i, flight, k);
    DatedMoves(c, u, i, flight);
    StoredMoves(c, u, i, flight);
    var u' := Next(c, u, i);
    forall s | 0 <= s < 3 && u'.lb.q.ok[s]
      ensures SlotExact(c, u', s)
    {
      OtherSlotsKept(c, u, i, flight, i.now, s);
    }
  }

  /** The slot just finished is exact. */
  lemma FinishedSlot(c: PS.Cfg, u: Unit, i: In, flight: seq<Read>)
    requires UnitInv(c, u, flight, i.now) && Contract(c, u, i, flight) && u.lb.q.filling && Ends(c, u)
    ensures Shaped(c, u, i) && Sizes(c, Next(c, u, i)) && SlotExact(c, Next(c, u, i), u.lb.q.slot)
  {
    BufferMoves(c, u, i, flight);
    OtherSlotsStored(c, u, i, flight, i.now);
    LastColumnIsLast(c, u, flight, i.now);
    var q, u' := u.lb.q, Next(c, u, i);
    assert u'.done[q.slot] == u.fill.(until := i.now) && u'.lb.q.held[q.slot] == q.row;
    assert FillNext(c, u, i).words == u.fill.words;
    forall k | 0 <= k < c.columns
      ensures PixelGot(c, Job(u'.lb.q.held[q.slot], u'.done[q.slot].since), u'.done[q.slot].words, k,
                       u'.lb.mem[LB.Adr(BufferCfg(c), q.slot, k)])
    {
      StoreSide(c, u, i, flight, i.now, k);
    }
  }

  lemma FillEnds(c: PS.Cfg, u: Unit, i: In, flight: seq<Read>, k: int)
    requires UnitInv(c, u, flight, i.now) && Contract(c, u, i, flight) && u.lb.q.filling && Ends(c, u)
    ensures Shaped(c, u, i) && UnitInv(c, Next(c, u, i), FlightNext(c, u, i, flight, k), i.now + 1)
  {
    BufferMoves(c, u, i, flight);
    LastColumnIsLast(c, u, flight, i.now);
    FinishedSlot(c, u, i, flight);
    DatedMoves(c, u, i, flight);
    var q, u' := u.lb.q, Next(c, u, i);
    forall s | 0 <= s < 3 && u'.lb.q.ok[s]
      ensures SlotExact(c, u', s)
    {
      if s != q.slot { OtherSlotsKept(c, u, i, flight, i.now, s); }
    }
  }

  lemma RestGoesOn(c: PS.Cfg, u: Unit, i: In, flight: seq<Read>, k: int)
    requires UnitInv(c, u, flight, i.now) && Contract(c, u, i, flight) && !u.lb.q.filling
    ensures Shaped(c, u, i) && UnitInv(c, Next(c, u, i), FlightNext(c, u, i, flight, k), i.now + 1)
  {
    ShapedInv(c, u, i, flight, i.now);
    DatedMoves(c, u, i, flight);
    var u' := Next(c, u, i);
    assert u'.lb.mem == u.lb.mem && u'.lb.q.held == u.lb.q.held && u'.done == u.done;
    forall s | 0 <= s < 3 && u'.lb.q.ok[s]
      ensures SlotExact(c, u', s)
    {
      assert SlotExact(c, u, s);
    }
  }

  /** ONE CYCLE of a fetch unit: whatever the acceptances, the returning words, the memory, the base and the
      serialiser's position, finished slots stay exact and the fill in progress stays on its row. */
  lemma UnitStep(c: PS.Cfg, u: Unit, i: In, flight: seq<Read>, k: int)
    requires UnitInv(c, u, flight, i.now) && Contract(c, u, i, flight)
    ensures Shaped(c, u, i) && UnitInv(c, Next(c, u, i), FlightNext(c, u, i, flight, k), i.now + 1)
  {
    if !u.lb.q.filling {
      RestGoesOn(c, u, i, flight, k);
    } else if Ends(c, u) {
      FillEnds(c, u, i, flight, k);
    } else {
      FillGoesOn(c, u, i, flight, k);
    }
  }
}
