/** The CPU branch: a classifier watches the beats an invalidator passes on, and cuts pixel packets off. */
module PixelFilter {

  /** A beat of four bytes, first wire byte first. */
  datatype Beat = Beat(bytes: seq<int>, last: bool)

  /** What leaves: a beat of the frame, or the error-marked end. */
  datatype Sent = Pass(beat: Beat) | ErrorEnd

  datatype Cfg = Cfg(enable: bool, port: int)

  const LENGTH: int := 9

  /** The eight-bit beat counter and the eleven-bit length counter. */
  function Inc8(n: int): int { if n == 255 then 0 else n + 1 }

  function Inc11(n: int): int { if n == 2047 then 0 else n + 1 }

  // --- Classifier ---------------------------------------------------------------------------

  datatype Class = Class(beat: int, isIp: bool, isUdp: bool, matched: bool, portOk: bool)

  const FRESH: Class := Class(0, false, false, false, false)

  predicate IpHeader(b: Beat) { |b.bytes| == 4 && b.bytes[0] == 0x08 && b.bytes[1] == 0x00 && b.bytes[2] == 0x45 }

  predicate UdpHeader(b: Beat) { |b.bytes| == 4 && b.bytes[3] == 17 }

  predicate PortHeader(c: Cfg, b: Beat) { |b.bytes| == 4 && b.bytes[0] == c.port / 256 && b.bytes[1] == c.port % 256 }

  /** Not the palette packet's magic 'BP'. */
  predicate PixelMagic(b: Beat) { |b.bytes| == 4 && !(b.bytes[2] == 0x42 && b.bytes[3] == 0x50) }

  /** After a beat has been taken. */
  function ClassNext(c: Cfg, k: Class, b: Beat): Class {
    if b.last then FRESH
    else Class(Inc8(k.beat),
               if k.beat == 3 then IpHeader(b) else k.isIp,
               if k.beat == 5 && k.isIp then UdpHeader(b) else k.isUdp,
               k.matched || (k.beat == 10 && k.portOk && PixelMagic(b)),
               k.portOk || (k.beat == 9 && k.isIp && k.isUdp && PortHeader(c, b)))
  }

  predicate Invalid(c: Cfg, k: Class) { k.matched && c.enable }

  // --- Invalidator --------------------------------------------------------------------------

  datatype Fsm = Idle | Copy | Invalidate | WaitTillDone

  datatype Cut = Cut(fsm: Fsm, count: int)

  datatype Regs = Regs(cls: Class, cut: Cut)

  datatype In = In(valid: bool, beat: Beat, ready: bool)

  predicate SinkReady(q: Cut, i: In) {
    match q.fsm
    case Idle => i.ready
    case Copy => i.ready
    case Invalidate => !(i.beat.last && i.valid)
    case WaitTillDone => true
  }

  predicate Taken(q: Cut, i: In) { i.valid && SinkReady(q, i) }

  /** The beat the consumer takes this cycle. */
  function Sends(q: Cut, i: In): seq<Sent> {
    match q.fsm
    case Idle => if i.valid && i.ready then [Pass(i.beat)] else []
    case Copy => if i.valid && i.ready then [Pass(i.beat)] else []
    case Invalidate => if i.ready then [ErrorEnd] else []
    case WaitTillDone => []
  }

  function CutNext(q: Cut, i: In, invalid: bool): Cut {
    match q.fsm
    case Idle => Cut(if i.valid && i.ready then Copy else Idle, 1)
    case Copy =>
      var taken := i.valid && i.ready;
      Cut(if taken && i.beat.last then Idle else if invalid && q.count > LENGTH then Invalidate else Copy,
          if taken then Inc11(q.count) else q.count)
    case Invalidate => Cut(if i.ready then WaitTillDone else Invalidate, q.count)
    case WaitTillDone => Cut(if i.valid && i.beat.last then Idle else WaitTillDone, q.count)
  }

  function Next(c: Cfg, q: Regs, i: In): Regs {
    Regs(if Taken(q.cut, i) then ClassNext(c, q.cls, i.beat) else q.cls,
         CutNext(q.cut, i, Invalid(c, q.cls)))
  }

  class Filter {
    const c: Cfg
    var q: Regs

    constructor (c: Cfg)
      ensures this.c == c && q == Regs(FRESH, Cut(Idle, 0))
    {
      this.c := c;
      q := Regs(FRESH, Cut(Idle, 0));
    }

    method ClockClassifier(b: Beat) returns (n: Class)
      ensures n == ClassNext(c, q.cls, b)
    {
      var k := q.cls;
      n := k;
      if b.last {
        n := FRESH;
      } else {
        n := n.(beat := Inc8(k.beat));
        if k.beat == 3 { n := n.(isIp := IpHeader(b)); }
        if k.beat == 5 && k.isIp { n := n.(isUdp := UdpHeader(b)); }
        if k.beat == 9 && k.isIp && k.isUdp && PortHeader(c, b) { n := n.(portOk := true); }
        if k.beat == 10 && k.portOk && PixelMagic(b) { n := n.(matched := true); }
      }
    }

    method Clock(i: In) returns (sinkReady: bool, sends: seq<Sent>)
      modifies this
      ensures q == Next(c, old(q), i)
      ensures sinkReady == SinkReady(old(q).cut, i) && sends == Sends(old(q).cut, i)
    {
      var cut, n := q.cut, q.cut;
      sinkReady, sends := SinkReady(cut, i), Sends(cut, i);
      match cut.fsm {
        case Idle =>
          n := n.(count := 1);
          if i.valid && i.ready { n := n.(fsm := Copy); }
        case Copy =>
          if q.cls.matched && c.enable && cut.count > LENGTH { n := n.(fsm := Invalidate); }
          if i.valid && i.ready {
            if i.beat.last { n := n.(fsm := Idle); }
            n := n.(count := Inc11(cut.count));
          }
        case Invalidate =>
          if i.ready { n := n.(fsm := WaitTillDone); }
        case WaitTillDone =>
          if i.valid && i.beat.last { n := n.(fsm := Idle); }
      }
      var cls := q.cls;
      if i.valid && sinkReady { cls := ClockClassifier(i.beat); }
      q := Regs(cls, n);
    }
  }

  // --- What a frame is ----------------------------------------------------------------------

  predicate Open(f: seq<Beat>) { forall k | 0 <= k < |f| :: !f[k].last }

  predicate Frame(f: seq<Beat>) { f != [] && f[|f| - 1].last && Open(f[..|f| - 1]) }

  function Passed(f: seq<Beat>): seq<Sent> {
    if f == [] then [] else Passed(f[..|f| - 1]) + [Pass(f[|f| - 1])]
  }

  /** The classifier after the beats of an unfinished frame. */
  function After(c: Cfg, f: seq<Beat>): Class {
    if f == [] then FRESH else ClassNext(c, After(c, f[..|f| - 1]), f[|f| - 1])
  }

  /** How many beats had been taken when the verdict fell; zero if it has not. */
  function Verdict(c: Cfg, f: seq<Beat>): (n: nat)
    ensures n <= |f|
  {
    if f == [] then 0
    else if Verdict(c, f[..|f| - 1]) > 0 then Verdict(c, f[..|f| - 1])
    else if After(c, f).matched then |f| else 0
  }

  /** Cut off after `k` beats, the verdict's beat or one more, and ended with an error. */
  predicate CutOff(f: seq<Beat>, out: seq<Sent>, n: int, k: int) {
    1 <= n <= k <= n + 1 && k < |f| && out == Passed(f[..k]) + [ErrorEnd]
  }

  /** What a finished frame becomes: itself without a verdict, a cut-off prefix with one. A verdict that
      falls with the last beat but one may come too late. */
  predicate Right(c: Cfg, f: seq<Beat>, out: seq<Sent>) {
    && Frame(f)
    && var n := Verdict(c, f[..|f| - 1]);
       if !c.enable || n == 0 then out == Passed(f)
       else CutOff(f, out, n, |out| - 1) || (n == |f| - 1 && out == Passed(f))
  }

  // --- Runs ---------------------------------------------------------------------------------

  /** A finished frame and what left for it. */
  datatype Seen = Seen(frame: seq<Beat>, out: seq<Sent>)

  /** The beats of the frame in progress, what has left for it, and the frames before it. */
  datatype World = World(q: Regs, cur: seq<Beat>, out: seq<Sent>, seen: seq<Seen>)

  function Step(c: Cfg, w: World, i: In): World {
    var out := w.out + Sends(w.q.cut, i);
    if !Taken(w.q.cut, i) then World(Next(c, w.q, i), w.cur, out, w.seen)
    else if i.beat.last then World(Next(c, w.q, i), [], [], w.seen + [Seen(w.cur + [i.beat], out)])
    else World(Next(c, w.q, i), w.cur + [i.beat], out, w.seen)
  }

  /** By how much the length counter can lead the beat counter: whole turns, and one more after a frame
      of a single beat. */
  predicate Lag(count: int, beat: int) {
    && 0 <= count < 2048 && 0 <= beat < 256
    && count - beat in {-255, 0, 1, 256, 257, 512, 513, 768, 769, 1024, 1025, 1280, 1281, 1536, 1537, 1792, 1793}
  }

  lemma LagKept(count: int, beat: int)
    requires Lag(count, beat)
    ensures Lag(Inc11(count), Inc8(beat))
    ensures beat == 11 ==> count > LENGTH
  {
  }

  predicate FsmAt(c: Cfg, q: Cut, beat: int, cur: seq<Beat>, out: seq<Sent>) {
    var n := Verdict(c, cur);
    match q.fsm
    case Idle => cur == [] && out == []
    case Copy => out == Passed(cur) && Lag(q.count, beat)
                 && (c.enable && n > 0 ==> n == |cur|)
    case Invalidate => c.enable && 1 <= n <= |out| <= n + 1 && |out| <= |cur| && out == Passed(cur[..|out|])
    case WaitTillDone => c.enable && 1 <= n <= |out| - 1 <= n + 1 && |out| - 1 <= |cur|
                         && out == Passed(cur[..|out| - 1]) + [ErrorEnd]
  }

  predicate SeenRight(c: Cfg, seen: seq<Seen>, k: int) { 0 <= k < |seen| && Right(c, seen[k].frame, seen[k].out) }

  predicate Inv(c: Cfg, w: World) {
    && Open(w.cur) && w.q.cls == After(c, w.cur) && FsmAt(c, w.q.cut, w.q.cls.beat, w.cur, w.out)
    && AllRight(c, w.seen)
  }

  lemma AfterMore(c: Cfg, f: seq<Beat>, b: Beat)
    ensures After(c, f + [b]) == ClassNext(c, After(c, f), b)
    ensures Passed(f + [b]) == Passed(f) + [Pass(b)]
    ensures Verdict(c, f + [b]) == (if Verdict(c, f) > 0 then Verdict(c, f) else if After(c, f + [b]).matched then |f| + 1 else 0)
  {
    assert (f + [b])[..|f|] == f;
  }

  lemma {:induction false} PassedLength(f: seq<Beat>)
    ensures |Passed(f)| == |f|
  {
    if f != [] { PassedLength(f[..|f| - 1]); }
  }

  function Beat8(n: nat): int { if n == 0 then 0 else Inc8(Beat8(n - 1)) }

  lemma {:induction false} Beat8Is(n: nat)
    ensures n <= 255 ==> Beat8(n) == n
    ensures 256 <= n <= 511 ==> Beat8(n) == n - 256
  {
    if n > 0 { Beat8Is(n - 1); }
  }

  /** Within a frame the beat counter is the number of beats, and a verdict never goes away. */
  lemma {:induction false} Counting(c: Cfg, f: seq<Beat>)
    requires Open(f)
    ensures After(c, f).beat == Beat8(|f|)
    ensures After(c, f).matched <==> Verdict(c, f) > 0
    ensures Verdict(c, f) > 0 ==> Beat8(Verdict(c, f)) == 11
  {
    if f != [] { Counting(c, f[..|f| - 1]); }
  }

  lemma CopyStep(c: Cfg, w: World, i: In)
    requires Inv(c, w) && w.q.cut.fsm == Copy && !(Taken(w.q.cut, i) && i.beat.last)
    ensures FsmAt(c, Step(c, w, i).q.cut, Step(c, w, i).q.cls.beat, Step(c, w, i).cur, Step(c, w, i).out)
  {
    Counting(c, w.cur);
    LagKept(w.q.cut.count, w.q.cls.beat);
    PassedLength(w.cur);
    AfterMore(c, w.cur, i.beat);
    if Taken(w.q.cut, i) {
      PassedLength(w.cur + [i.beat]);
      assert (w.cur + [i.beat])[..|w.cur| + 1] == w.cur + [i.beat];
    } else {
      assert w.cur[..|w.cur|] == w.cur;
    }
  }

  lemma PrefixKept(f: seq<Beat>, b: Beat, k: int)
    requires 0 <= k <= |f|
    ensures (f + [b])[..k] == f[..k] && |Passed(f[..k])| == k
  {
    PassedLength(f[..k]);
  }

  lemma InvalidateStep(c: Cfg, w: World, i: In)
    requires Inv(c, w) && w.q.cut.fsm == Invalidate
    ensures FsmAt(c, Step(c, w, i).q.cut, Step(c, w, i).q.cls.beat, Step(c, w, i).cur, Step(c, w, i).out)
  {
    AfterMore(c, w.cur, i.beat);
    PrefixKept(w.cur, i.beat, |w.out|);
  }

  lemma WaitStep(c: Cfg, w: World, i: In)
    requires Inv(c, w) && w.q.cut.fsm == WaitTillDone && !(i.valid && i.beat.last)
    ensures FsmAt(c, Step(c, w, i).q.cut, Step(c, w, i).q.cls.beat, Step(c, w, i).cur, Step(c, w, i).out)
  {
    AfterMore(c, w.cur, i.beat);
    PrefixKept(w.cur, i.beat, |w.out| - 1);
  }

  lemma PassedFrameEnds(c: Cfg, w: World, i: In)
    requires Inv(c, w) && Taken(w.q.cut, i) && i.beat.last && (w.q.cut.fsm == Idle || w.q.cut.fsm == Copy)
    ensures Right(c, w.cur + [i.beat], w.out + Sends(w.q.cut, i))
  {
    var f := w.cur + [i.beat];
    assert f[..|f| - 1] == w.cur;
    AfterMore(c, w.cur, i.beat);
  }

  lemma CutFrameEnds(c: Cfg, w: World, i: In)
    requires Inv(c, w) && Taken(w.q.cut, i) && i.beat.last && w.q.cut.fsm == WaitTillDone
    ensures Right(c, w.cur + [i.beat], w.out)
  {
    var f := w.cur + [i.beat];
    assert f[..|f| - 1] == w.cur;
    PrefixKept(w.cur, i.beat, |w.out| - 1);
  }

  lemma FrameEnds(c: Cfg, w: World, i: In)
    requires Inv(c, w) && Taken(w.q.cut, i) && i.beat.last
    ensures Right(c, w.cur + [i.beat], w.out + Sends(w.q.cut, i))
    ensures Step(c, w, i).q.cls == FRESH && FsmAt(c, Step(c, w, i).q.cut, 0, [], [])
  {
    if w.q.cut.fsm == WaitTillDone {
      CutFrameEnds(c, w, i);
      assert w.out + [] == w.out;
    } else {
      PassedFrameEnds(c, w, i);
    }
  }

  predicate AllRight(c: Cfg, seen: seq<Seen>) { forall k | 0 <= k < |seen| :: SeenRight(c, seen, k) }

  lemma OneMoreRight(c: Cfg, seen: seq<Seen>, s: Seen)
    requires AllRight(c, seen) && Right(c, s.frame, s.out)
    ensures AllRight(c, seen + [s])
  {
    forall k | 0 <= k < |seen + [s]|
      ensures SeenRight(c, seen + [s], k)
    {
      if k < |seen| { assert SeenRight(c, seen, k); }
    }
  }

  lemma FrameGoesOn(c: Cfg, w: World, i: In)
    requires Inv(c, w) && !(Taken(w.q.cut, i) && i.beat.last)
    ensures FsmAt(c, Step(c, w, i).q.cut, Step(c, w, i).q.cls.beat, Step(c, w, i).cur, Step(c, w, i).out)
    ensures Open(Step(c, w, i).cur) && Step(c, w, i).q.cls == After(c, Step(c, w, i).cur)
  {
    AfterMore(c, w.cur, i.beat);
    if w.q.cut.fsm == Copy { CopyStep(c, w, i); }
    else if w.q.cut.fsm == Invalidate { InvalidateStep(c, w, i); }
    else if w.q.cut.fsm == WaitTillDone { WaitStep(c, w, i); }
  }

  lemma StepInv(c: Cfg, w: World, i: In)
    requires Inv(c, w)
    ensures Inv(c, Step(c, w, i))
  {
    if Taken(w.q.cut, i) && i.beat.last {
      FrameEnds(c, w, i);
      OneMoreRight(c, w.seen, Seen(w.cur + [i.beat], w.out + Sends(w.q.cut, i)));
    } else {
      FrameGoesOn(c, w, i);
    }
  }

  const RESET: World := World(Regs(FRESH, Cut(Idle, 0)), [], [], [])

  predicate TickAt(c: Cfg, run: seq<World>, ins: seq<In>, t: nat)
    requires t < |ins| && |run| == |ins| + 1
  {
    run[t + 1] == Step(c, run[t], ins[t])
  }

  predicate IsRun(c: Cfg, run: seq<World>, ins: seq<In>) {
    |run| == |ins| + 1 && run[0] == RESET && forall t | 0 <= t < |ins| :: TickAt(c, run, ins, t)
  }

  lemma {:induction false} RunInv(c: Cfg, run: seq<World>, ins: seq<In>, t: nat)
    requires IsRun(c, run, ins) && t < |run|
    ensures Inv(c, run[t])
  {
    if t > 0 {
      RunInv(c, run, ins, t - 1);
      assert TickAt(c, run, ins, t - 1);
      StepInv(c, run[t - 1], ins[t - 1]);
    }
  }

  // --- The verdict is about the headers -----------------------------------------------------

  /** IPv4 without options, UDP, to the port, and not the palette's magic. */
  predicate IsPixel(c: Cfg, f: seq<Beat>) {
    11 <= |f| && IpHeader(f[3]) && UdpHeader(f[5]) && PortHeader(c, f[9]) && PixelMagic(f[10])
  }

  predicate HeaderAt(c: Cfg, f: seq<Beat>, k: Class) {
    && k.isIp == (|f| > 3 && IpHeader(f[3]))
    && k.isUdp == (|f| > 5 && IpHeader(f[3]) && UdpHeader(f[5]))
    && k.portOk == (|f| > 9 && IpHeader(f[3]) && UdpHeader(f[5]) && PortHeader(c, f[9]))
    && k.matched == IsPixel(c, f)
  }

  lemma {:induction false} FirstPass(c: Cfg, f: seq<Beat>)
    requires Open(f) && |f| <= 256
    ensures HeaderAt(c, f, After(c, f))
  {
    if f != [] {
      FirstPass(c, f[..|f| - 1]);
      Counting(c, f[..|f| - 1]);
      Beat8Is(|f| - 1);
    }
  }

  /** In a frame of at most 267 beats the verdict falls exactly on a pixel packet's eleventh beat. */
  lemma {:induction false} VerdictIsHeaders(c: Cfg, f: seq<Beat>)
    requires Open(f) && |f| <= 266
    ensures Verdict(c, f) == (if IsPixel(c, f) then 11 else 0)
  {
    if f != [] {
      VerdictIsHeaders(c, f[..|f| - 1]);
      Counting(c, f[..|f| - 1]);
      Beat8Is(|f| - 1);
      if |f| <= 256 { FirstPass(c, f); FirstPass(c, f[..|f| - 1]); }
    }
  }

  /** ... and a pixel packet of any length gets it there. */
  lemma {:induction false} PixelsAreFound(c: Cfg, f: seq<Beat>)
    requires Open(f) && IsPixel(c, f)
    ensures Verdict(c, f) == 11
  {
    if |f| == 11 {
      VerdictIsHeaders(c, f);
    } else {
      PixelsAreFound(c, f[..|f| - 1]);
    }
  }

  // --- What leaves --------------------------------------------------------------------------

  /** PIXEL PACKETS ARE CUT OFF. With the filter on, a finished frame of thirteen beats or more that is a
      pixel packet has left as its first eleven or twelve beats and an error-marked end. */
  lemma PixelFramesAreCut(c: Cfg, run: seq<World>, ins: seq<In>, t: nat, k: nat)
    requires c.enable && IsRun(c, run, ins) && t < |run| && k < |run[t].seen|
    requires var f := run[t].seen[k].frame; 13 <= |f| && IsPixel(c, f)
    ensures var f, out := run[t].seen[k].frame, run[t].seen[k].out;
            out == Passed(f[..11]) + [ErrorEnd] || out == Passed(f[..12]) + [ErrorEnd]
  {
    RunInv(c, run, ins, t);
    assert SeenRight(c, run[t].seen, k);
    var f := run[t].seen[k].frame;
    PixelsAreFound(c, f[..|f| - 1]);
  }

  /** EVERYTHING ELSE IS LEFT ALONE. A finished frame of at most 267 beats that is not a pixel packet, and
      any frame of at most eleven beats, has left beat for beat, whatever came before it. */
  lemma OtherFramesPass(c: Cfg, run: seq<World>, ins: seq<In>, t: nat, k: nat)
    requires IsRun(c, run, ins) && t < |run| && k < |run[t].seen|
    requires var f := run[t].seen[k].frame; !c.enable || |f| <= 11 || (|f| <= 267 && !IsPixel(c, f))
    ensures Frame(run[t].seen[k].frame) && run[t].seen[k].out == Passed(run[t].seen[k].frame)
  {
    RunInv(c, run, ins, t);
    assert SeenRight(c, run[t].seen, k);
    var f := run[t].seen[k].frame;
    if |f| <= 267 { VerdictIsHeaders(c, f[..|f| - 1]); }
  }

  // --- It does not stand still --------------------------------------------------------------

  /** A beat is offered in cycle t, and not taken. */
  predicate Refused(run: seq<World>, ins: seq<In>, t: nat)
    requires t < |ins| && |run| == |ins| + 1
  {
    ins[t].valid && run[t + 1].cur == run[t].cur && run[t + 1].seen == run[t].seen
  }

  /** NOT TWICE. A beat refused though the consumer is ready is the last of a frame being cut, held back for the
      error-marked end; the end leaves in that cycle, and the next takes the beat, consumer or not. */
  lemma HeldForTheEnd(c: Cfg, run: seq<World>, ins: seq<In>, t: nat)
    requires IsRun(c, run, ins) && t + 1 < |ins| && Refused(run, ins, t) && ins[t].ready
    ensures ins[t].beat.last && run[t + 1].out == run[t].out + [ErrorEnd]
    ensures ins[t + 1].valid ==> !Refused(run, ins, t + 1)
  {
    assert TickAt(c, run, ins, t) && TickAt(c, run, ins, t + 1);
  }

  /** Of a frame being cut the rest is taken without asking the consumer: only its last beat waits for the end. */
  lemma RestIsTaken(c: Cfg, run: seq<World>, ins: seq<In>, t: nat)
    requires IsRun(c, run, ins) && t < |ins| && ins[t].valid && !ins[t].beat.last
    requires run[t].q.cut.fsm == Invalidate || run[t].q.cut.fsm == WaitTillDone
    ensures run[t + 1].cur == run[t].cur + [ins[t].beat]
    ensures run[t + 1].out == run[t].out || run[t + 1].out == run[t].out + [ErrorEnd]
  {
    assert TickAt(c, run, ins, t);
  }
}
