/** The hardware branch on the wire: which packets' bytes leave, told by their first bytes. */
module WireBytes {
  import opened Narrowing

  /** How many bytes of the last word are real: up to the highest one marked, and at least one. */
  function RealBytes(be: seq<bool>): int
    requires |be| == 4
  {
    if be[3] then 4 else if be[2] then 3 else if be[1] then 2 else 1
  }

  /** The bytes of a packet as they were on the wire. */
  function Wire(p: seq<Beat>): seq<int>
    requires forall k | 0 <= k < |p| :: ValidBeat(p[k])
  {
    if p == [] then []
    else
      var b := p[|p| - 1];
      assert ValidBeat(b);
      Wire(p[..|p| - 1]) + b.bytes[..if b.last then RealBytes(b.lastBe) else 4]
  }

  function Marked(bytes: seq<int>): seq<Octet> {
    seq(|bytes|, k requires 0 <= k < |bytes| => Octet(bytes[k], k == |bytes| - 1))
  }

  /** To one station, or to all of them: the first bit on the wire is 0, or the first four bytes are all ones. */
  predicate ForUs(p: seq<Beat>)
    requires Packet(p)
  {
    assert ValidBeat(p[0]);
    var b := p[0].bytes;
    b[0] % 2 == 0 || (b[0] == 255 && b[1] == 255 && b[2] == 255 && b[3] == 255)
  }

  function Wanted(ps: seq<seq<Beat>>): seq<Octet>
    requires Packets(ps)
  {
    if ps == [] then []
    else Wanted(ps[..|ps| - 1]) + (if ForUs(ps[|ps| - 1]) then Marked(Wire(ps[|ps| - 1])) else [])
  }

  function Plain(bytes: seq<int>): seq<Octet> { seq(|bytes|, k requires 0 <= k < |bytes| => Octet(bytes[k], false)) }

  lemma {:induction false} PartIsWire(p: seq<Beat>)
    requires Partial(p)
    ensures PacketBytes(p) == Plain(Wire(p))
  {
    if p != [] {
      PartIsWire(p[..|p| - 1]);
      assert ValidBeat(p[|p| - 1]);
    }
  }

  lemma LastWordIs(b: Beat)
    requires ValidBeat(b) && b.last
    ensures WordBytes(b) == Marked(b.bytes[..RealBytes(b.lastBe)]) != []
  {
  }

  lemma MarkedAppend(a: seq<int>, b: seq<int>)
    requires b != []
    ensures Marked(a + b) == Plain(a) + Marked(b)
  {
  }

  lemma PacketIsWire(p: seq<Beat>)
    requires Packet(p)
    ensures PacketBytes(p) == Marked(Wire(p)) && Wire(p) != []
  {
    var front, b := p[..|p| - 1], p[|p| - 1];
    PartIsWire(front);
    assert ValidBeat(b);
    LastWordIs(b);
    var start, end := Wire(front), b.bytes[..RealBytes(b.lastBe)];
    assert Wire(p) == start + end && PacketBytes(p) == Plain(start) + Marked(end);
    MarkedAppend(start, end);
  }

  lemma GroupIsNotForUs(p: seq<Beat>)
    requires Packet(p)
    ensures ValidBeat(p[0]) && (Group(p[0]) <==> !ForUs(p))
  {
    assert p[0].bytes == [255, 255, 255, 255]
      <==> p[0].bytes[0] == 255 && p[0].bytes[1] == 255 && p[0].bytes[2] == 255 && p[0].bytes[3] == 255;
  }

  lemma {:induction false} ExpectedIsWanted(ps: seq<seq<Beat>>)
    requires Packets(ps)
    ensures Expected(ps) == Wanted(ps)
  {
    if ps != [] {
      ExpectedIsWanted(ps[..|ps| - 1]);
      PacketIsWire(ps[|ps| - 1]);
      GroupIsNotForUs(ps[|ps| - 1]);
    }
  }

  /** A PACKET'S BYTES LEAVE IF AND ONLY IF IT IS FOR US: under every pattern of readiness, once the serialiser is
      empty between packets, exactly the wire's bytes of the packets whose first byte is even, or whose first four
      bytes are 255, have left, in order, each packet's last one marked. */
  lemma OnlyOurBytesLeave(run: seq<World>, ins: seq<In>, t: nat)
    requires IsRun(run, ins) && t < |run| && !run[t].q.sr.loaded && run[t].part == []
    ensures Packets(run[t].done) && run[t].out == Wanted(run[t].done)
  {
    BytesOfTheRest(run, ins, t);
    ExpectedIsWanted(run[t].done);
  }

  // --- One packet ---------------------------------------------------------------------------

  /** A unicast packet leaves whole. */
  lemma UnicastLeaves(run: seq<World>, ins: seq<In>, t: nat, p: seq<Beat>)
    requires IsRun(run, ins) && t < |run| && !run[t].q.sr.loaded && run[t].part == [] && run[t].done == [p]
    requires p != [] && |p[0].bytes| == 4 && p[0].bytes[0] % 2 == 0
    ensures Packet(p) && run[t].out == Marked(Wire(p)) != []
  {
    OnlyOurBytesLeave(run, ins, t);
    assert Packet(run[t].done[0]);
    PacketIsWire(p);
    assert run[t].done[..0] == [];
  }

  /** So does a broadcast. */
  lemma BroadcastLeaves(run: seq<World>, ins: seq<In>, t: nat, p: seq<Beat>)
    requires IsRun(run, ins) && t < |run| && !run[t].q.sr.loaded && run[t].part == [] && run[t].done == [p]
    requires p != [] && p[0].bytes == [255, 255, 255, 255]
    ensures Packet(p) && run[t].out == Marked(Wire(p)) != []
  {
    OnlyOurBytesLeave(run, ins, t);
    assert Packet(run[t].done[0]);
    PacketIsWire(p);
    assert run[t].done[..0] == [];
  }

  /** Of a multicast packet nothing leaves, not even its first word. */
  lemma MulticastDoesNot(run: seq<World>, ins: seq<In>, t: nat, p: seq<Beat>)
    requires IsRun(run, ins) && t < |run| && !run[t].q.sr.loaded && run[t].part == [] && run[t].done == [p]
    requires p != [] && |p[0].bytes| == 4 && p[0].bytes[0] % 2 == 1 && p[0].bytes != [255, 255, 255, 255]
    ensures run[t].out == []
  {
    OnlyOurBytesLeave(run, ins, t);
    assert Packet(run[t].done[0]);
    GroupIsNotForUs(p);
    assert run[t].done[..0] == [];
  }

  // --- The counter --------------------------------------------------------------------------

  /** A word that begins a packet for several stations, but not for all. */
  predicate Multicast(b: Beat)
    requires |b.bytes| == 4
  {
    b.bytes[0] % 2 == 1 && !(b.bytes[0] == 255 && b.bytes[1] == 255 && b.bytes[2] == 255 && b.bytes[3] == 255)
  }

  function One(b: bool): int { if b then 1 else 0 }

  function Multicasts(ps: seq<seq<Beat>>): int
    requires Packets(ps)
  {
    if ps == [] then 0 else Multicasts(ps[..|ps| - 1]) + One(!ForUs(ps[|ps| - 1]))
  }

  /** One for a packet under way whose first word is a multicast's. */
  function Begun(part: seq<Beat>): int
    requires Partial(part)
  {
    if part == [] then 0 else assert ValidBeat(part[0]); One(Multicast(part[0]))
  }

  predicate Counted(w: World) {
    match w
    case World(q, done, part, out) =>
      Packets(done) && Partial(part) && q.gr.rejected == (Multicasts(done) + Begun(part)) % 0x1_0000_0000
  }

  lemma CountedAtReset()
    ensures Counted(World(RESET, [], [], []))
  {
  }

  lemma GroupIsMulticast(b: Beat)
    requires ValidBeat(b)
    ensures Group(b) <==> Multicast(b)
  {
    assert b.bytes == [255, 255, 255, 255] <==> b.bytes[0] == 255 && b.bytes[1] == 255 && b.bytes[2] == 255 && b.bytes[3] == 255;
  }

  lemma BegunMore(done: seq<seq<Beat>>, part: seq<Beat>, b: Beat)
    requires Packets(done) && Partial(part) && ValidBeat(b)
    ensures var more := if part == [] then One(Group(b)) else Begun(part);
            if b.last then Packets(done + [part + [b]]) && Multicasts(done + [part + [b]]) == Multicasts(done) + more
            else Partial(part + [b]) && Begun(part + [b]) == more
  {
    PacketOf(part, b);
    GroupIsMulticast(b);
    if b.last {
      assert (done + [part + [b]])[..|done|] == done;
      GroupIsNotForUs(part + [b]);
      if part != [] { GroupIsMulticast(part[0]); }
    }
  }

  lemma AddOne(n: int, m: int, r: int, r': int, more: bool)
    requires r == n % 0x1_0000_0000 && m == n + One(more) && r' == (if more then (r + 1) % 0x1_0000_0000 else r)
    ensures r' == m % 0x1_0000_0000
  {
  }

  /** Between packets the group test is about to be made. */
  predicate Framed(w: World) {
    match w
    case World(q, done, part, out) => Shaped(q.sr) && Packets(done) && Partial(part) && (q.gr.first <==> part == [])
  }

  /** What a beat adds to the packets begun and to the counter. */
  lemma CountMoves(w: World, i: In)
    requires Framed(w) && ValidBeat(i.beat) && Taken(w.q, i)
    ensures var w', more := Step(w, i), w.part == [] && Group(i.beat);
            && Packets(w'.done) && Partial(w'.part)
            && Multicasts(w'.done) + Begun(w'.part) == Multicasts(w.done) + Begun(w.part) + One(more)
            && w'.q.gr.rejected == (if more then (w.q.gr.rejected + 1) % 0x1_0000_0000 else w.q.gr.rejected)
  {
    BegunMore(w.done, w.part, i.beat);
  }

  lemma CountRests(w: World, i: In)
    requires Framed(w) && ValidBeat(i.beat) && Counted(w) && !Taken(w.q, i)
    ensures Counted(Step(w, i))
  {
    assert Step(w, i).done == w.done && Step(w, i).part == w.part && Step(w, i).q.gr == w.q.gr;
  }

  lemma CountTakes(w: World, i: In)
    requires Framed(w) && ValidBeat(i.beat) && Counted(w) && Taken(w.q, i)
    ensures Counted(Step(w, i))
  {
    CountMoves(w, i);
    var w', more := Step(w, i), w.part == [] && Group(i.beat);
    AddOne(Multicasts(w.done) + Begun(w.part), Multicasts(w'.done) + Begun(w'.part), w.q.gr.rejected, w'.q.gr.rejected, more);
  }

  lemma CountStep(w: World, i: In)
    requires Inv(w) && ValidBeat(i.beat) && Counted(w)
    ensures Counted(Step(w, i))
  {
    assert Framed(w);
    if Taken(w.q, i) { CountTakes(w, i); } else { CountRests(w, i); }
  }

  /** REJECTED, COUNTED: the counter is the number of multicast packets begun, on 32 bits. */
  lemma {:induction false} RejectedCounts(run: seq<World>, ins: seq<In>, t: nat)
    requires IsRun(run, ins) && t < |run|
    ensures Counted(run[t])
  {
    if t == 0 {
      CountedAtReset();
    } else {
      RejectedCounts(run, ins, t - 1);
      RunInv(run, ins, t - 1);
      assert TickAt(run, ins, t - 1);
      CountStep(run[t - 1], ins[t - 1]);
    }
  }

  // --- It does not stand still --------------------------------------------------------------

  /** An empty serialiser takes any beat in the cycle it is offered, and a full one is empty again after four
      cycles in which its bytes are taken. */
  lemma {:induction false} WordsGoOut(run: seq<World>, ins: seq<In>, t: nat)
    requires IsRun(run, ins) && t < |ins|
    ensures !run[t].q.sr.loaded && ins[t].valid ==> |run[t + 1].done| > |run[t].done| || run[t + 1].part != []
    ensures t + 4 < |run| && (forall k | t <= k < t + 4 :: ins[k].ready)
            ==> exists k | t <= k <= t + 4 :: !run[k].q.sr.loaded
  {
    assert TickAt(run, ins, t);
    if t + 4 < |run| && (forall k | t <= k < t + 4 :: ins[k].ready) {
      if forall k | t <= k <= t + 4 :: run[k].q.sr.loaded {
        IndexGrows(run, ins, t, 4);
      }
    }
  }

  lemma ByteGoesOut(s: Serial, valid: bool, b: Beat)
    requires InWord(s) && ValidBeat(b) && s.loaded && SerialNext(s, valid, b, true).loaded
    ensures SerialNext(s, valid, b, true).idx == s.idx + 1
  {
  }

  lemma LoadedAt(run: seq<World>, ins: seq<In>, t: nat)
    requires IsRun(run, ins) && t < |ins| && ins[t].ready && run[t].q.sr.loaded && run[t + 1].q.sr.loaded
    ensures run[t + 1].q.sr.idx == run[t].q.sr.idx + 1
  {
    RunInv(run, ins, t);
    assert TickAt(run, ins, t);
    ByteGoesOut(run[t].q.sr, ins[t].valid && !KillNow(run[t].q.gr, ins[t].beat), ins[t].beat);
  }

  lemma {:induction false} IndexGrows(run: seq<World>, ins: seq<In>, t: nat, n: nat)
    requires IsRun(run, ins) && t + n < |run| && n <= 4
    requires (forall k | t <= k < t + n :: ins[k].ready) && forall k | t <= k <= t + n :: run[k].q.sr.loaded
    ensures Shaped(run[t + n].q.sr) && run[t + n].q.sr.idx >= n
  {
    RunInv(run, ins, t + n);
    if n > 0 {
      IndexGrows(run, ins, t, n - 1);
      LoadedAt(run, ins, t + n - 1);
    }
  }
}
