/** The classifier's test on the wire: which bytes of an Ethernet frame make it a pixel packet. */
module WireHeaders {
  import opened PixelFilter

  predicate WholeWords(f: seq<Beat>, n: nat) { n <= |f| && forall k | 0 <= k < n :: |f[k].bytes| == 4 }

  /** Byte i of the frame, counted from the destination address. */
  function At(f: seq<Beat>, i: nat): int
    requires WholeWords(f, i / 4 + 1)
  {
    f[i / 4].bytes[i % 4]
  }

  /** Ethertype 0x0800, version 4 with a header of five words, protocol UDP, the destination port, and a payload
      that does not begin with 'BP'. */
  predicate PixelOnWire(port: int, f: seq<Beat>)
    requires WholeWords(f, 11)
  {
    && At(f, 12) == 0x08 && At(f, 13) == 0x00 && At(f, 14) == 0x45
    && At(f, 23) == 17
    && 0x100 * At(f, 36) + At(f, 37) == port
    && !(At(f, 42) == 'B' as int && At(f, 43) == 'P' as int)
  }

  predicate Octets(f: seq<Beat>)
    requires WholeWords(f, 11)
  {
    0 <= At(f, 36) < 0x100 && 0 <= At(f, 37) < 0x100
  }

  lemma PortOnWire(hi: int, lo: int, port: int)
    requires 0 <= hi < 0x100 && 0 <= lo < 0x100 && 0 <= port < 0x1_0000
    ensures 0x100 * hi + lo == port <==> hi == port / 256 && lo == port % 256
  {
  }

  /** THE HEADERS, BYTE BY BYTE. */
  lemma HeadersOnWire(c: Cfg, f: seq<Beat>)
    requires WholeWords(f, 11) && Octets(f) && 0 <= c.port < 0x1_0000
    ensures IsPixel(c, f) <==> PixelOnWire(c.port, f)
  {
    PortOnWire(At(f, 36), At(f, 37), c.port);
    assert At(f, 12) == f[3].bytes[0] && At(f, 13) == f[3].bytes[1] && At(f, 14) == f[3].bytes[2];
    assert At(f, 23) == f[5].bytes[3] && At(f, 36) == f[9].bytes[0] && At(f, 37) == f[9].bytes[1];
    assert At(f, 42) == f[10].bytes[2] && At(f, 43) == f[10].bytes[3];
  }

  /** CUT OR LEFT ALONE, told by its bytes: with the filter on, a finished frame of 13 to 267 beats leaves cut off
      if and only if its bytes make it a pixel packet, and whole otherwise. */
  lemma FilteredByWire(c: Cfg, run: seq<World>, ins: seq<In>, t: nat, k: nat)
    requires c.enable && IsRun(c, run, ins) && t < |run| && k < |run[t].seen| && 0 <= c.port < 0x1_0000
    requires var f := run[t].seen[k].frame; 13 <= |f| <= 267 && WholeWords(f, 11) && Octets(f)
    ensures var f, out := run[t].seen[k].frame, run[t].seen[k].out;
            if PixelOnWire(c.port, f) then out == Passed(f[..11]) + [ErrorEnd] || out == Passed(f[..12]) + [ErrorEnd]
            else out == Passed(f)
  {
    var f := run[t].seen[k].frame;
    HeadersOnWire(c, f);
    if IsPixel(c, f) { PixelFramesAreCut(c, run, ins, t, k); } else { OtherFramesPass(c, run, ins, t, k); }
  }

  /** A TCP frame leaves whole, on any port. */
  lemma TcpPasses(c: Cfg, run: seq<World>, ins: seq<In>, t: nat, k: nat)
    requires c.enable && IsRun(c, run, ins) && t < |run| && k < |run[t].seen|
    requires var f := run[t].seen[k].frame; 13 <= |f| <= 267 && WholeWords(f, 11) && At(f, 23) == 6
    ensures run[t].seen[k].out == Passed(run[t].seen[k].frame)
  {
    assert At(run[t].seen[k].frame, 23) == run[t].seen[k].frame[5].bytes[3];
    OtherFramesPass(c, run, ins, t, k);
  }

  /** So does a palette packet. */
  lemma PalettePasses(c: Cfg, run: seq<World>, ins: seq<In>, t: nat, k: nat)
    requires c.enable && IsRun(c, run, ins) && t < |run| && k < |run[t].seen|
    requires var f := run[t].seen[k].frame;
             13 <= |f| <= 267 && WholeWords(f, 11) && At(f, 42) == 'B' as int && At(f, 43) == 'P' as int
    ensures run[t].seen[k].out == Passed(run[t].seen[k].frame)
  {
    var f := run[t].seen[k].frame;
    assert At(f, 42) == f[10].bytes[2] && At(f, 43) == f[10].bytes[3];
    OtherFramesPass(c, run, ins, t, k);
  }
}
