/** Frames longer than the classifier's eight-bit beat counter, and frames of exactly twelve beats. */
module LongFrames {
  import opened PixelFilter

  // --- The second pass of the beat counter --------------------------------------------------

  /** The headers up to the port are a pixel packet's or a palette packet's. */
  predicate PortHeaders(c: Cfg, f: seq<Beat>) {
    |f| >= 10 && IpHeader(f[3]) && UdpHeader(f[5]) && PortHeader(c, f[9])
  }

  /** The same at beats 256 on, where the counter starts over. */
  predicate PayloadHeaders(c: Cfg, f: seq<Beat>) {
    |f| >= 266 && IpHeader(f[259]) && UdpHeader(f[261]) && PortHeader(c, f[265])
  }

  /** The payload draws a verdict: either port check has succeeded and beat 266 is not 'BP'. */
  predicate Misjudged(c: Cfg, f: seq<Beat>) {
    |f| >= 267 && (PortHeaders(c, f) || PayloadHeaders(c, f)) && PixelMagic(f[266])
  }

  predicate SecondAt(c: Cfg, f: seq<Beat>, k: Class)
    requires |f| >= 256
  {
    && k.isIp == (if |f| > 259 then IpHeader(f[259]) else IpHeader(f[3]))
    && k.isUdp == (if |f| > 261 && IpHeader(f[259]) then UdpHeader(f[261]) else IpHeader(f[3]) && UdpHeader(f[5]))
    && k.portOk == (PortHeaders(c, f) || PayloadHeaders(c, f))
    && k.matched == (IsPixel(c, f) || Misjudged(c, f))
  }

  lemma {:induction false} SecondPass(c: Cfg, f: seq<Beat>)
    requires Open(f) && 256 <= |f| <= 512
    ensures SecondAt(c, f, After(c, f))
  {
    if |f| == 256 {
      FirstPass(c, f);
    } else {
      SecondPass(c, f[..|f| - 1]);
      Counting(c, f[..|f| - 1]);
      Beat8Is(|f| - 1);
    }
  }

  /** Up to 523 beats the verdict falls on beat 11 for a pixel packet, else on beat 267 exactly when the
      payload looks like one there, else never. */
  lemma {:induction false} VerdictExactly(c: Cfg, f: seq<Beat>)
    requires Open(f) && |f| <= 522
    ensures Verdict(c, f) == (if IsPixel(c, f) then 11 else if Misjudged(c, f) then 267 else 0)
  {
    if |f| <= 266 {
      VerdictIsHeaders(c, f);
    } else {
      var front := f[..|f| - 1];
      VerdictExactly(c, front);
      Counting(c, front);
      Beat8Is(|f| - 1);
      if |f| <= 512 { SecondPass(c, f); } else { ThirdPass(c, front); }
    }
  }

  /** The counter is at most nine into its third pass: nothing can match yet. */
  lemma ThirdPass(c: Cfg, front: seq<Beat>)
    requires Open(front) && 512 <= |front| <= 521
    ensures After(c, front).beat != 10
  {
    Counting(c, front);
    Beat8Third(|front|);
  }

  lemma {:induction false} Beat8Third(n: nat)
    requires 512 <= n <= 767
    ensures Beat8(n) == n - 512
  {
    if n == 512 { Beat8Is(511); } else { Beat8Third(n - 1); }
  }

  // --- What leaves --------------------------------------------------------------------------

  /** FRAMES OF UP TO 523 BEATS, EXACTLY. With the filter on, a finished frame has left cut off if its
      verdict falls before its last beat but one, and whole if no verdict falls. */
  lemma FramesUpTo523(c: Cfg, run: seq<World>, ins: seq<In>, t: nat, k: nat)
    requires c.enable && IsRun(c, run, ins) && t < |run| && k < |run[t].seen| && |run[t].seen[k].frame| <= 523
    ensures var f, out := run[t].seen[k].frame, run[t].seen[k].out;
            && (|f| >= 13 && IsPixel(c, f) ==> out == Passed(f[..11]) + [ErrorEnd] || out == Passed(f[..12]) + [ErrorEnd])
            && (|f| >= 269 && !IsPixel(c, f) && Misjudged(c, f) ==>
                  out == Passed(f[..267]) + [ErrorEnd] || out == Passed(f[..268]) + [ErrorEnd])
            && (!IsPixel(c, f) && !Misjudged(c, f) ==> out == Passed(f))
  {
    RunInv(c, run, ins, t);
    assert SeenRight(c, run[t].seen, k);
    var f := run[t].seen[k].frame;
    VerdictExactly(c, f[..|f| - 1]);
  }

  /** A palette packet of 269 beats or more whose beat 266 is not again 'BP' is cut off like a pixel packet. */
  lemma LongPaletteIsCut(c: Cfg, run: seq<World>, ins: seq<In>, t: nat, k: nat)
    requires c.enable && IsRun(c, run, ins) && t < |run| && k < |run[t].seen|
    requires var f := run[t].seen[k].frame;
             269 <= |f| <= 523 && PortHeaders(c, f) && !PixelMagic(f[10]) && PixelMagic(f[266])
    ensures var f, out := run[t].seen[k].frame, run[t].seen[k].out;
            out == Passed(f[..267]) + [ErrorEnd] || out == Passed(f[..268]) + [ErrorEnd]
  {
    FramesUpTo523(c, run, ins, t, k);
  }

  // --- Every frame can be finished ----------------------------------------------------------

  lemma OneMore(c: Cfg, run: seq<World>, ins: seq<In>, i: In)
    requires IsRun(c, run, ins)
    ensures IsRun(c, run + [Step(c, run[|ins|], i)], ins + [i])
  {
    var run', ins' := run + [Step(c, run[|ins|], i)], ins + [i];
    forall t | 0 <= t < |ins'|
      ensures TickAt(c, run', ins', t)
    {
      if t < |ins| { assert TickAt(c, run, ins, t); }
    }
  }

  /** With everything ready, the first m beats of a frame are taken in some run. */
  lemma {:induction false} Feed(c: Cfg, f: seq<Beat>, m: nat) returns (run: seq<World>, ins: seq<In>)
    requires Frame(f) && m < |f|
    ensures IsRun(c, run, ins) && run[|ins|].cur == f[..m] && run[|ins|].seen == []
  {
    if m == 0 {
      run, ins := [RESET], [];
    } else {
      run, ins := Feed(c, f, m - 1);
      var i := In(true, f[m - 1], true);
      RunInv(c, run, ins, |ins|);
      assert f[..|f| - 1][m - 1] == f[m - 1] && !i.beat.last;
      var w := run[|ins|];
      OneMore(c, run, ins, i);
      run, ins := run + [Step(c, w, i)], ins + [i];
      assert f[..m] == f[..m - 1] + [f[m - 1]];
    }
  }

  /** ... and so are all of them: in a cycle more if the error-marked end has to leave first. */
  lemma Finish(c: Cfg, f: seq<Beat>) returns (run: seq<World>, ins: seq<In>)
    requires Frame(f)
    ensures IsRun(c, run, ins) && |run[|ins|].seen| == 1 && run[|ins|].seen[0].frame == f
  {
    var m := |f| - 1;
    run, ins := Feed(c, f, m);
    var i := In(true, f[m], true);
    assert f == f[..m] + [f[m]];
    var w := run[|ins|];
    if w.q.cut.fsm == Invalidate {
      var w' := Step(c, w, i);
      assert w'.q.cut.fsm == WaitTillDone && w'.cur == w.cur && w'.seen == [];
      OneMore(c, run, ins, i);
      run, ins := run + [w'], ins + [i];
      OneMore(c, run, ins, i);
      run, ins := run + [Step(c, w', i)], ins + [i];
    } else {
      OneMore(c, run, ins, i);
      run, ins := run + [Step(c, w, i)], ins + [i];
    }
  }

  /** BEYOND 267 BEATS. Every frame of 269 to 523 beats whose payload looks like a pixel packet's headers is
      finished in some run, and has then left cut off although its own headers are not a pixel packet's. */
  lemma LongFramesCanBeMisjudged(c: Cfg, f: seq<Beat>) returns (run: seq<World>, ins: seq<In>)
    requires c.enable && Frame(f) && 269 <= |f| <= 523 && !IsPixel(c, f) && Misjudged(c, f)
    ensures IsRun(c, run, ins) && |run[|ins|].seen| == 1 && run[|ins|].seen[0].frame == f
    ensures var out := run[|ins|].seen[0].out;
            out == Passed(f[..267]) + [ErrorEnd] || out == Passed(f[..268]) + [ErrorEnd]
  {
    run, ins := Finish(c, f);
    FramesUpTo523(c, run, ins, |ins|, 0);
  }

  /** The bytes of beat k of a pixel packet's headers, zero where the classifier does not look. */
  function HeaderBytes(c: Cfg, k: int): seq<int> {
    if k == 3 then [0x08, 0x00, 0x45, 0]
    else if k == 5 then [0, 0, 0, 17]
    else if k == 9 then [c.port / 256, c.port % 256, 0, 0]
    else [0, 0, 0, 0]
  }

  /** 256 zero beats, a pixel packet's headers, and two beats more. */
  function Lookalike(c: Cfg): (f: seq<Beat>)
    ensures Frame(f) && |f| == 269 && !IsPixel(c, f) && Misjudged(c, f)
  {
    seq(269, k => Beat(HeaderBytes(c, k - 256), k == 268))
  }

  /** THE CASE. On any port, a frame of 269 beats that is not even IPv4, and a run in which it leaves cut off. */
  lemma LookalikeIsCut(c: Cfg) returns (run: seq<World>, ins: seq<In>)
    requires c.enable
    ensures IsRun(c, run, ins) && |run[|ins|].seen| == 1 && run[|ins|].seen[0].frame == Lookalike(c)
    ensures var f, out := Lookalike(c), run[|ins|].seen[0].out;
            !IpHeader(f[3]) && (out == Passed(f[..267]) + [ErrorEnd] || out == Passed(f[..268]) + [ErrorEnd])
  {
    run, ins := LongFramesCanBeMisjudged(c, Lookalike(c));
  }

  // --- Exactly twelve beats -----------------------------------------------------------------

  /** When the verdict has just fallen, the next beat still passes if it is taken in that very cycle: a
      frame that ends there leaves whole. */
  lemma EndAtOnce(c: Cfg, w: World, i: In)
    requires Inv(c, w) && c.enable && w.q.cut.fsm == Copy && |w.cur| == 11 && IsPixel(c, w.cur)
    requires i.valid && i.ready && i.beat.last
    ensures Step(c, w, i).seen == w.seen + [Seen(w.cur + [i.beat], Passed(w.cur + [i.beat]))]
  {
    AfterMore(c, w.cur, i.beat);
  }

  /** Otherwise the frame is cut: not taken in that cycle, its last beat waits for the error-marked end. */
  lemma EndLater(c: Cfg, w: World, i: In)
    requires Inv(c, w) && c.enable && w.q.cut.fsm == Copy && |w.cur| == 11 && IsPixel(c, w.cur)
    requires !(i.valid && i.ready)
    ensures Doomed(c, Step(c, w, i))
  {
    VerdictIsHeaders(c, w.cur);
    Counting(c, w.cur);
    LagKept(w.q.cut.count, w.q.cls.beat);
    Beat8Is(11);
  }

  /** The frame in progress cannot leave whole any more. */
  predicate Doomed(c: Cfg, w: World) { w.cur != [] && (w.q.cut.fsm == Invalidate || w.q.cut.fsm == WaitTillDone) }

  lemma DoomedIsCut(c: Cfg, w: World, i: In)
    requires Inv(c, w) && Doomed(c, w)
    ensures Step(c, w, i).seen == w.seen ==> Doomed(c, Step(c, w, i))
    ensures Step(c, w, i).seen != w.seen ==>
              var s := Step(c, w, i).seen[|w.seen|];
              && s.frame == w.cur + [i.beat] && |s.out| >= 1
              && CutOff(s.frame, s.out, Verdict(c, w.cur), |s.out| - 1)
  {
    if w.q.cut.fsm == WaitTillDone {
      PrefixKept(w.cur, i.beat, |w.out| - 1);
      assert w.out + [] == w.out;
    }
  }
}
