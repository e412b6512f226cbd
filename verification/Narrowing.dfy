/** The hardware branch: group-addressed frames are thrown away, the rest leave byte by byte. */
module Narrowing {

  /** A word of four bytes, first wire byte first; on the last word `lastBe` marks the last real byte. */
  datatype Beat = Beat(bytes: seq<int>, last: bool, lastBe: seq<bool>)

  datatype Octet = Octet(value: int, last: bool)

  predicate ValidBeat(b: Beat) { |b.bytes| == |b.lastBe| == 4 && forall k | 0 <= k < 4 :: 0 <= b.bytes[k] < 256 }

  // --- Group reject -------------------------------------------------------------------------

  datatype Reject = Reject(first: bool, killing: bool, rejected: int)

  /** IEEE 802.3 section 3.2.3: the first bit of the destination address; broadcast is let through. */
  predicate Group(b: Beat)
    requires |b.bytes| == 4
  {
    b.bytes[0] % 2 == 1 && b.bytes != [255, 255, 255, 255]
  }

  predicate KillNow(q: Reject, b: Beat)
    requires |b.bytes| == 4
  {
    if q.first then Group(b) else q.killing
  }

  /** After a beat has been taken. */
  function RejectNext(q: Reject, b: Beat): Reject
    requires |b.bytes| == 4
  {
    Reject(b.last, !b.last && KillNow(q, b),
           if q.first && Group(b) then (q.rejected + 1) % 0x1_0000_0000 else q.rejected)
  }

  // --- 32 to 8 ------------------------------------------------------------------------------

  datatype Serial = Serial(idx: int, data: seq<int>, lastBe: seq<bool>, last: bool, loaded: bool)

  function FinalIdx(be: seq<bool>): (k: int)
    requires |be| == 4
    ensures 0 <= k < 4
  {
    if be[3] then 3 else if be[2] then 2 else if be[1] then 1 else 0
  }

  predicate Shaped(s: Serial) { |s.data| == |s.lastBe| == 4 && 0 <= s.idx < 4 }

  predicate SourceLast(s: Serial)
    requires Shaped(s)
  {
    s.last && s.idx == FinalIdx(s.lastBe)
  }

  function Out(s: Serial): Octet
    requires Shaped(s)
  {
    Octet(s.data[s.idx], SourceLast(s))
  }

  function SerialNext(s: Serial, valid: bool, b: Beat, ready: bool): Serial
    requires Shaped(s) && ValidBeat(b)
  {
    if !s.loaded then
      (if valid then Serial(0, b.bytes, if b.last then b.lastBe else [true, true, true, true], b.last, true) else s)
    else if ready then
      (if SourceLast(s) || s.idx == 3 then s.(loaded := false) else s.(idx := s.idx + 1))
    else s
  }

  // --- Together -----------------------------------------------------------------------------

  datatype Regs = Regs(gr: Reject, sr: Serial)

  datatype In = In(valid: bool, beat: Beat, ready: bool)

  const RESET: Regs := Regs(Reject(true, false, 0), Serial(0, [0, 0, 0, 0], [false, false, false, false], false, false))

  /** The sink's ready: the serialiser is empty, or the beat is being thrown away. */
  predicate Taken(q: Regs, i: In)
    requires ValidBeat(i.beat)
  {
    i.valid && (!q.sr.loaded || KillNow(q.gr, i.beat))
  }

  predicate Emits(q: Regs, i: In) { q.sr.loaded && i.ready }

  function Next(q: Regs, i: In): Regs
    requires Shaped(q.sr) && ValidBeat(i.beat)
  {
    Regs(if Taken(q, i) then RejectNext(q.gr, i.beat) else q.gr,
         SerialNext(q.sr, i.valid && !KillNow(q.gr, i.beat), i.beat, i.ready))
  }

  class Branch {
    var q: Regs

    constructor ()
      ensures q == RESET
    {
      q := RESET;
    }

    method Clock(i: In) returns (sinkReady: bool, valid: bool, octet: Octet)
      requires Shaped(q.sr) && ValidBeat(i.beat)
      modifies this
      ensures q == Next(old(q), i)
      ensures i.valid ==> sinkReady == Taken(old(q), i)
      ensures valid == old(q).sr.loaded && octet == Out(old(q).sr)
    {
      var g, s, b := q.gr, q.sr, i.beat;
      var group := b.bytes[0] % 2 == 1 && b.bytes != [255, 255, 255, 255];
      var killNow := if g.first then group else g.killing;
      sinkReady := !s.loaded || killNow;
      valid, octet := s.loaded, Out(s);
      if i.valid && sinkReady {
        if g.first {
          g := g.(first := false, killing := group);
          if group { g := g.(rejected := (g.rejected + 1) % 0x1_0000_0000); }
        }
        if b.last { g := g.(first := true, killing := false); }
      }
      if !s.loaded {
        if i.valid && !killNow {
          s := Serial(0, b.bytes, if b.last then b.lastBe else [true, true, true, true], b.last, true);
        }
      } else if i.ready {
        if octet.last || s.idx == 3 { s := s.(loaded := false); } else { s := s.(idx := s.idx + 1); }
      }
      q := Regs(g, s);
    }
  }

  // --- What should come out -----------------------------------------------------------------

  /** A whole packet: words of four bytes, `last` on the final one only. */
  predicate Packet(p: seq<Beat>) {
    && p != [] && (forall k | 0 <= k < |p| :: ValidBeat(p[k]))
    && forall k | 0 <= k < |p| :: p[k].last == (k == |p| - 1)
  }

  predicate Packets(ps: seq<seq<Beat>>) { forall k | 0 <= k < |ps| :: Packet(ps[k]) }

  /** The real bytes of a word: all four, or up to the marked one on the last word, which ends the packet. */
  function WordBytes(b: Beat): seq<Octet>
    requires |b.bytes| == |b.lastBe| == 4
  {
    var n := if b.last then FinalIdx(b.lastBe) + 1 else 4;
    seq(n, k requires 0 <= k < n => Octet(b.bytes[k], b.last && k == n - 1))
  }

  function PacketBytes(p: seq<Beat>): seq<Octet>
    requires forall k | 0 <= k < |p| :: ValidBeat(p[k])
  {
    if p == [] then []
    else assert ValidBeat(p[|p| - 1]); PacketBytes(p[..|p| - 1]) + WordBytes(p[|p| - 1])
  }

  /** The bytes of every packet that is not group-addressed, in order. */
  function Expected(ps: seq<seq<Beat>>): seq<Octet>
    requires Packets(ps)
  {
    if ps == [] then []
    else Expected(ps[..|ps| - 1]) + (if Group(ps[|ps| - 1][0]) then [] else PacketBytes(ps[|ps| - 1]))
  }

  // --- Runs ---------------------------------------------------------------------------------

  /** Packets taken whole, the beats taken of the one after, and the bytes sent out. */
  datatype World = World(q: Regs, done: seq<seq<Beat>>, part: seq<Beat>, out: seq<Octet>)

  function Step(w: World, i: In): World
    requires Shaped(w.q.sr) && ValidBeat(i.beat)
  {
    var out := if Emits(w.q, i) then w.out + [Out(w.q.sr)] else w.out;
    if !Taken(w.q, i) then World(Next(w.q, i), w.done, w.part, out)
    else if i.beat.last then World(Next(w.q, i), w.done + [w.part + [i.beat]], [], out)
    else World(Next(w.q, i), w.done, w.part + [i.beat], out)
  }

  /** Bytes of the word in the serialiser that are still to be sent. */
  function Pending(s: Serial): seq<Octet>
    requires InWord(s)
  {
    if !s.loaded then [] else WordBytes(Beat(s.data, s.last, s.lastBe))[s.idx..]
  }

  /** The byte in turn is one of the word's. */
  predicate InWord(s: Serial) { Shaped(s) && (s.loaded && s.last ==> s.idx <= FinalIdx(s.lastBe)) }

  predicate Partial(p: seq<Beat>) { forall k | 0 <= k < |p| :: ValidBeat(p[k]) && !p[k].last }

  /** The bytes of the packet being taken. */
  function PartBytes(p: seq<Beat>): seq<Octet>
    requires Partial(p)
  {
    if p == [] || Group(p[0]) then [] else PacketBytes(p)
  }

  predicate Inv(w: World) {
    && Packets(w.done) && Partial(w.part)
    && w.q.gr.first == (w.part == [])
    && w.q.gr.killing == (w.part != [] && Group(w.part[0]))
    && InWord(w.q.sr)
    && w.out + Pending(w.q.sr) == Expected(w.done) + PartBytes(w.part)
  }

  lemma PendingEmits(s: Serial)
    requires InWord(s) && s.loaded
    ensures var s' := if SourceLast(s) || s.idx == 3 then s.(loaded := false) else s.(idx := s.idx + 1);
            InWord(s') && Pending(s) == [Out(s)] + Pending(s')
  {
    var w := WordBytes(Beat(s.data, s.last, s.lastBe));
    assert w[s.idx..] == [w[s.idx]] + w[s.idx + 1..];
  }

  lemma PendingLoads(s: Serial, b: Beat)
    requires InWord(s) && !s.loaded && ValidBeat(b)
    ensures InWord(SerialNext(s, true, b, false)) && Pending(SerialNext(s, true, b, false)) == WordBytes(b)
  {
    var s' := SerialNext(s, true, b, false);
    assert WordBytes(Beat(s'.data, s'.last, s'.lastBe)) == WordBytes(b);
  }

  lemma PacketOf(part: seq<Beat>, b: Beat)
    requires Partial(part) && ValidBeat(b)
    ensures b.last ==> Packet(part + [b])
    ensures !b.last ==> Partial(part + [b])
    ensures PacketBytes(part + [b]) == PacketBytes(part) + WordBytes(b)
    ensures (part + [b])[0] == (if part == [] then b else part[0])
  {
    assert (part + [b])[..|part|] == part;
  }

  /** What a beat adds to the expected bytes when it is taken. */
  lemma TakenAdds(done: seq<seq<Beat>>, part: seq<Beat>, b: Beat)
    requires Packets(done) && Partial(part) && ValidBeat(b)
    ensures var add := if Group(if part == [] then b else part[0]) then [] else WordBytes(b);
            if b.last then Packets(done + [part + [b]]) && Expected(done + [part + [b]]) == Expected(done) + PartBytes(part) + add
            else Partial(part + [b]) && PartBytes(part + [b]) == PartBytes(part) + add
  {
    PacketOf(part, b);
    if b.last {
      assert (done + [part + [b]])[..|done|] == done;
    }
  }

  lemma SerialEmits(s: Serial, out: seq<Octet>, valid: bool, b: Beat)
    requires InWord(s) && ValidBeat(b) && s.loaded
    ensures var s' := SerialNext(s, valid, b, true);
            InWord(s') && out + [Out(s)] + Pending(s') == out + Pending(s)
  {
    PendingEmits(s);
    var s' := SerialNext(s, valid, b, true);
    assert out + ([Out(s)] + Pending(s')) == (out + [Out(s)]) + Pending(s');
  }

  lemma SerialLoads(s: Serial, b: Beat, ready: bool)
    requires InWord(s) && ValidBeat(b) && !s.loaded
    ensures InWord(SerialNext(s, true, b, ready)) && Pending(SerialNext(s, true, b, ready)) == WordBytes(b)
    ensures Pending(s) == []
  {
    PendingLoads(s, b);
  }

  /** A cycle of the serialiser moves a byte from pending to sent, or takes in a word. */
  lemma SerialFlow(s: Serial, out: seq<Octet>, valid: bool, b: Beat, ready: bool)
    requires InWord(s) && ValidBeat(b)
    ensures InWord(SerialNext(s, valid, b, ready))
    ensures (if s.loaded && ready then out + [Out(s)] else out) + Pending(SerialNext(s, valid, b, ready))
         == out + Pending(s) + (if !s.loaded && valid then WordBytes(b) else [])
  {
    if s.loaded && ready {
      SerialEmits(s, out, valid, b);
    } else if !s.loaded && valid {
      SerialLoads(s, b, ready);
    }
  }

  function Add(w: World, i: In): seq<Octet>
    requires ValidBeat(i.beat) && Shaped(w.q.sr)
  {
    if !w.q.sr.loaded && i.valid && !KillNow(w.q.gr, i.beat) then WordBytes(i.beat) else []
  }

  lemma FramesStep(w: World, i: In)
    requires Inv(w) && ValidBeat(i.beat)
    ensures var w' := Step(w, i);
            && Packets(w'.done) && Partial(w'.part)
            && w'.q.gr.first == (w'.part == [])
            && w'.q.gr.killing == (w'.part != [] && Group(w'.part[0]))
            && Expected(w'.done) + PartBytes(w'.part) == Expected(w.done) + PartBytes(w.part) + Add(w, i)
  {
    if Taken(w.q, i) { TakenAdds(w.done, w.part, i.beat); }
  }

  lemma StepInv(w: World, i: In)
    requires Inv(w) && ValidBeat(i.beat)
    ensures Inv(Step(w, i))
  {
    FramesStep(w, i);
    SerialFlow(w.q.sr, w.out, i.valid && !KillNow(w.q.gr, i.beat), i.beat, i.ready);
  }

  predicate TickAt(run: seq<World>, ins: seq<In>, t: nat)
    requires t < |ins| && |run| == |ins| + 1
  {
    ValidBeat(ins[t].beat) && Shaped(run[t].q.sr) && run[t + 1] == Step(run[t], ins[t])
  }

  predicate IsRun(run: seq<World>, ins: seq<In>) {
    && |run| == |ins| + 1 && run[0] == World(RESET, [], [], [])
    && forall t | 0 <= t < |ins| :: TickAt(run, ins, t)
  }

  lemma {:induction false} RunInv(run: seq<World>, ins: seq<In>, t: nat)
    requires IsRun(run, ins) && t < |run|
    ensures Inv(run[t])
  {
    if t > 0 {
      RunInv(run, ins, t - 1);
      assert TickAt(run, ins, t - 1);
      StepInv(run[t - 1], ins[t - 1]);
    }
  }

  /** EXACTLY THE BYTES. Under every pattern of readiness, once the serialiser is empty between packets
      the bytes sent are those of the packets that were not group-addressed, `last` on each packet's
      final real byte and on no other; before that, a prefix of them. */
  lemma BytesOfTheRest(run: seq<World>, ins: seq<In>, t: nat)
    requires IsRun(run, ins) && t < |run|
    ensures var w := run[t];
            && Packets(w.done) && Partial(w.part)
            && w.out <= Expected(w.done) + PartBytes(w.part)
            && (!w.q.sr.loaded && w.part == [] ==> w.out == Expected(w.done))
  {
    RunInv(run, ins, t);
    assert run[t].out <= run[t].out + Pending(run[t].q.sr);
  }

  lemma {:induction false} WholeLength(p: seq<Beat>)
    requires Partial(p)
    ensures |PacketBytes(p)| == 4 * |p|
  {
    if p != [] { WholeLength(p[..|p| - 1]); }
  }

  /** Byte k of the whole words of a packet is byte k % 4 of word k / 4. */
  lemma {:induction false} WholeWords(p: seq<Beat>, w: int, j: int)
    requires Partial(p) && 0 <= w < |p| && 0 <= j < 4
    ensures |PacketBytes(p)| == 4 * |p| && PacketBytes(p)[4 * w + j] == Octet(p[w].bytes[j], false)
    decreases |p|
  {
    var front := p[..|p| - 1];
    WholeLength(p);
    WholeLength(front);
    if w < |front| { WholeWords(front, w, j); }
  }

  /** Byte j of word w of a packet is the wire's, and only the packet's last real byte carries `last`. */
  lemma LastOnFinalByte(p: seq<Beat>, w: int, j: int)
    requires Packet(p) && 0 <= w < |p| && 0 <= j < 4
    requires w == |p| - 1 ==> j <= FinalIdx(p[w].lastBe)
    ensures |PacketBytes(p)| == 4 * (|p| - 1) + FinalIdx(p[|p| - 1].lastBe) + 1
    ensures PacketBytes(p)[4 * w + j] == Octet(p[w].bytes[j], 4 * w + j == |PacketBytes(p)| - 1)
  {
    var front := p[..|p| - 1];
    WholeLength(front);
    if w < |front| { WholeWords(front, w, j); }
  }
}
