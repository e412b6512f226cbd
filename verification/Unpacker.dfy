/** 32-bit words in, one or two pixels out: the residue register between them. */
module Unpacker {

  const W16: int := 0x1_0000
  const W24: int := 0x100_0000
  const W48: int := 0x1_0000_0000_0000

  datatype Regs = Regs(res: int, resN: int)

  /** One cycle: the word offered, the consumer, and the preload port. */
  datatype In = In(valid: bool, data: int, last: bool, outReady: bool, resSet: bool, setVal: int, setN: int)

  /** The residue first, then the word's bytes. */
  function Window(q: Regs, data: int): int {
    if q.resN == 0 then data
    else if q.resN == 1 then (q.res % 256 + 256 * data) % W48
    else if q.resN == 2 then (q.res + W16 * data) % W48
    else 0
  }

  function Px0(q: Regs, data: int): int { Window(q, data) % W24 }

  function Px1(q: Regs, data: int): int { Window(q, data) / W24 }

  function NOut(q: Regs): int { if q.resN == 2 then 2 else 1 }

  predicate Accepts(i: In) { i.valid && i.outReady }

  function Next(q: Regs, i: In): Regs {
    var win := Window(q, i.data);
    if i.resSet then Regs(i.setVal, i.setN)
    else if !Accepts(i) then q
    else if i.last then Regs(0, 0)
    else if q.resN == 0 then Regs(win / W24 % 256, 1)
    else if q.resN == 1 then Regs(win / W24 % W16, 2)
    else if q.resN == 2 then Regs(0, 0)
    else q
  }

  class WordsToPixels {
    var q: Regs

    constructor ()
      ensures q == Regs(0, 0)
    {
      q := Regs(0, 0);
    }

    method Clock(i: In) returns (ready: bool, outValid: bool, px0: int, px1: int, nOut: int, done: bool)
      modifies this
      ensures q == Next(old(q), i)
      ensures ready == i.outReady && outValid == i.valid && done == (i.valid && i.last)
      ensures px0 == Px0(old(q), i.data) && px1 == Px1(old(q), i.data) && nOut == NOut(old(q))
    {
      var win := Window(q, i.data);
      ready, outValid, done := i.outReady, i.valid, i.valid && i.last;
      px0, px1 := win % W24, win / W24;
      nOut := if q.resN == 2 then 2 else 1;
      if i.resSet {
        q := Regs(i.setVal, i.setN);
      } else if i.valid && i.outReady {
        if i.last {
          q := Regs(0, 0);
        } else {
          match q.resN {
            case 0 => q := Regs(win / W24 % 256, 1);
            case 1 => q := Regs(win / W24 % W16, 2);
            case 2 => q := Regs(0, 0);
            case _ =>
          }
        }
      }
    }
  }

  // --- Bytes --------------------------------------------------------------------------------

  predicate Byte(x: int) { 0 <= x < 256 }

  predicate Bytes(s: seq<int>) { forall k | 0 <= k < |s| :: Byte(s[k]) }

  function WordOf(b: seq<int>): int
    requires |b| == 4
  {
    b[0] + 256 * b[1] + W16 * b[2] + W24 * b[3]
  }

  function PixelOf(b0: int, b1: int, b2: int): int { b0 + 256 * b1 + W16 * b2 }

  /** The byte-level unpacking: consecutive triples, an incomplete one dropped. */
  function Triples(bytes: seq<int>): seq<int> {
    if |bytes| < 3 then [] else [PixelOf(bytes[0], bytes[1], bytes[2])] + Triples(bytes[3..])
  }

  /** What is left over after the triples. */
  function Left(bytes: seq<int>): seq<int> {
    if |bytes| < 3 then bytes else Left(bytes[3..])
  }

  lemma FirstTriple(s: seq<int>)
    requires |s| >= 3
    ensures Triples(s) == [PixelOf(s[0], s[1], s[2])] + Triples(s[3..]) && Left(s) == Left(s[3..])
  {
  }

  lemma {:induction false} TriplesSplit(a: seq<int>, b: seq<int>)
    ensures Triples(a + b) == Triples(a) + Triples(Left(a) + b)
    ensures Left(a + b) == Left(Left(a) + b)
    decreases |a|
  {
    if |a| >= 3 {
      TriplesSplit(a[3..], b);
      FirstTriple(a);
      FirstTriple(a + b);
      assert (a + b)[3..] == a[3..] + b;
    }
  }

  /** The residue register holds these bytes. */
  predicate Holds(q: Regs, left: seq<int>) {
    && |left| == q.resN && q.resN <= 2 && Bytes(left)
    && (q.resN == 1 ==> q.res % 256 == left[0])
    && (q.resN == 2 ==> q.res == left[0] + 256 * left[1])
  }

  function Emitted(q: Regs, data: int): seq<int> {
    if NOut(q) == 2 then [Px0(q, data), Px1(q, data)] else [Px0(q, data)]
  }

  lemma Split24(lo: int, hi: int)
    requires 0 <= lo < W24
    ensures (lo + W24 * hi) % W24 == lo && (lo + W24 * hi) / W24 == hi
  {
  }

  lemma NoResidue(q: Regs, b: seq<int>)
    requires Holds(q, []) && |b| == 4 && Bytes(b)
    ensures Emitted(q, WordOf(b)) == [PixelOf(b[0], b[1], b[2])] && Window(q, WordOf(b)) / W24 % 256 == b[3]
  {
    Split24(PixelOf(b[0], b[1], b[2]), b[3]);
  }

  lemma OneLeft(q: Regs, left: seq<int>, b: seq<int>)
    requires Holds(q, left) && |left| == 1 && |b| == 4 && Bytes(b)
    ensures Emitted(q, WordOf(b)) == [PixelOf(left[0], b[0], b[1])]
    ensures Window(q, WordOf(b)) / W24 % W16 == b[2] + 256 * b[3]
  {
    assert left[0] + 256 * WordOf(b) == PixelOf(left[0], b[0], b[1]) + W24 * (b[2] + 256 * b[3]);
    Split24(PixelOf(left[0], b[0], b[1]), b[2] + 256 * b[3]);
  }

  lemma TwoLeft(q: Regs, left: seq<int>, b: seq<int>)
    requires Holds(q, left) && |left| == 2 && |b| == 4 && Bytes(b)
    ensures Emitted(q, WordOf(b)) == [PixelOf(left[0], left[1], b[0]), PixelOf(b[1], b[2], b[3])]
  {
    assert q.res + W16 * WordOf(b) == PixelOf(left[0], left[1], b[0]) + W24 * PixelOf(b[1], b[2], b[3]);
    Split24(PixelOf(left[0], left[1], b[0]), PixelOf(b[1], b[2], b[3]));
  }

  lemma TriplesOf(left: seq<int>, b: seq<int>)
    requires |left| <= 2 && |b| == 4
    ensures Triples(left + b) == (if |left| == 0 then [PixelOf(b[0], b[1], b[2])]
                                  else if |left| == 1 then [PixelOf(left[0], b[0], b[1])]
                                  else [PixelOf(left[0], left[1], b[0]), PixelOf(b[1], b[2], b[3])])
    ensures Left(left + b) == (if |left| == 0 then [b[3]] else if |left| == 1 then [b[2], b[3]] else [])
  {
    var s := left + b;
    FirstTriple(s);
    if |left| == 0 {
      assert s == [b[0], b[1], b[2], b[3]] && s[3..] == [b[3]];
    } else if |left| == 1 {
      assert s == [left[0], b[0], b[1], b[2], b[3]] && s[3..] == [b[2], b[3]];
    } else {
      assert s == [left[0], left[1], b[0], b[1], b[2], b[3]] && s[3..] == [b[1], b[2], b[3]];
      FirstTriple(s[3..]);
      assert s[3..][3..] == [];
    }
  }

  /** A word in: the pixels out are the triples of the residue and the word, and the new residue is what
      is left of them. */
  lemma WordStep(q: Regs, left: seq<int>, b: seq<int>, i: In)
    requires Holds(q, left) && |b| == 4 && Bytes(b) && i.data == WordOf(b) && Accepts(i) && !i.resSet
    ensures Emitted(q, i.data) == Triples(left + b)
    ensures !i.last ==> Holds(Next(q, i), Left(left + b))
    ensures i.last ==> Holds(Next(q, i), [])
  {
    TriplesOf(left, b);
    if |left| == 0 { NoResidue(q, b); } else if |left| == 1 { OneLeft(q, left, b); } else { TwoLeft(q, left, b); }
  }

  // --- Runs ---------------------------------------------------------------------------------

  /** A payload's bytes: the preload, then each accepted word; and the pixels taken. */
  datatype Payload = Payload(bytes: seq<int>, pixels: seq<int>)

  datatype World = World(q: Regs, cur: Payload, done: seq<Payload>)

  /** The word's wire bytes, when it is offered; a preload comes with no word offered, between payloads,
      with at most two bytes. */
  datatype Tick = Tick(i: In, bytes: seq<int>)

  predicate Proper(w: World, t: Tick) {
    if t.i.resSet then
      !t.i.valid && w.cur == Payload([], []) && |t.bytes| <= 2 && Holds(Regs(t.i.setVal, t.i.setN), t.bytes)
    else
      t.i.valid ==> |t.bytes| == 4 && Bytes(t.bytes) && t.i.data == WordOf(t.bytes)
  }

  function Step(w: World, t: Tick): World {
    var q := Next(w.q, t.i);
    if t.i.resSet then World(q, Payload(t.bytes, []), w.done)
    else if !(t.i.valid && t.i.outReady) then World(q, w.cur, w.done)
    else
      var p := Payload(w.cur.bytes + t.bytes, w.cur.pixels + Emitted(w.q, t.i.data));
      if t.i.last then World(q, Payload([], []), w.done + [p]) else World(q, p, w.done)
  }

  predicate Unpacked(done: seq<Payload>, k: int) {
    0 <= k < |done| && done[k].pixels == Triples(done[k].bytes)
  }

  predicate Inv(w: World) {
    && Holds(w.q, Left(w.cur.bytes)) && w.cur.pixels == Triples(w.cur.bytes)
    && forall k | 0 <= k < |w.done| :: Unpacked(w.done, k)
  }

  lemma StepInv(w: World, t: Tick)
    requires Inv(w) && Proper(w, t)
    ensures Inv(Step(w, t))
  {
    var w' := Step(w, t);
    if Accepts(t.i) && !t.i.resSet {
      WordStep(w.q, Left(w.cur.bytes), t.bytes, t.i);
      TriplesSplit(w.cur.bytes, t.bytes);
    }
    forall k | 0 <= k < |w'.done|
      ensures Unpacked(w'.done, k)
    {
      if k < |w.done| { assert Unpacked(w.done, k); }
    }
  }

  predicate TickAt(run: seq<World>, ticks: seq<Tick>, t: nat)
    requires t < |ticks| && |run| == |ticks| + 1
  {
    Proper(run[t], ticks[t]) && run[t + 1] == Step(run[t], ticks[t])
  }

  predicate IsRun(run: seq<World>, ticks: seq<Tick>) {
    && |run| == |ticks| + 1 && run[0] == World(Regs(0, 0), Payload([], []), [])
    && forall t | 0 <= t < |ticks| :: TickAt(run, ticks, t)
  }

  lemma {:induction false} RunInv(run: seq<World>, ticks: seq<Tick>, t: nat)
    requires IsRun(run, ticks) && t < |run|
    ensures Inv(run[t])
  {
    if t > 0 {
      RunInv(run, ticks, t - 1);
      assert TickAt(run, ticks, t - 1);
      StepInv(run[t - 1], ticks[t - 1]);
    }
  }

  /** WORDS EQUAL BYTES. For any preload of up to two bytes, any words and any backpressure, the pixels of
      a finished payload are the consecutive triples of its bytes, and so are those of a payload in
      progress; nothing of one payload reaches the next. */
  lemma PixelsAreTriples(run: seq<World>, ticks: seq<Tick>, t: nat, k: nat)
    requires IsRun(run, ticks) && t < |run|
    ensures run[t].cur.pixels == Triples(run[t].cur.bytes)
    ensures k < |run[t].done| ==> run[t].done[k].pixels == Triples(run[t].done[k].bytes)
  {
    RunInv(run, ticks, t);
    if k < |run[t].done| { assert Unpacked(run[t].done, k); }
  }

  /** Pixel k is made of bytes 3k, 3k + 1 and 3k + 2, and there are as many as whole triples. */
  lemma {:induction false} TripleAt(bytes: seq<int>, k: nat)
    requires k < |bytes| / 3
    ensures |Triples(bytes)| == |bytes| / 3
    ensures Triples(bytes)[k] == PixelOf(bytes[3 * k], bytes[3 * k + 1], bytes[3 * k + 2])
    decreases |bytes|
  {
    if |bytes| >= 6 {
      TripleAt(bytes[3..], if k > 0 then k - 1 else 0);
    }
  }
}
