/** The arbiter in front of an in-order memory of arbitrary latency: accounting and routing. */
module Routing {
  import opened Arbiter

  /** A value seen in a cycle. */
  datatype Stamp = Stamp(value: int, at: int)

  /** A read: whose, where, the word the memory held when it took the command and the cycle in which it did,
      and the framebuffer base its address was made from. */
  datatype Read = Read(src: int, adr: int, word: int, at: int, from: Stamp)

  /** The arbiter, the reads in flight in order, and per source what it asked and what it was told. */
  datatype Sys = Sys(arb: Regs, flight: seq<Read>, asked: seq<seq<Read>>, told: seq<seq<int>>)

  /** One cycle of the environment: the sources' signals, the port, the word at the address, the cycle's
      number, and the base the address was made from. */
  datatype Tick = Tick(i: In, word: int, at: int, from: Stamp)

  function ReadOf(t: Tick, src: int, adr: int): Read { Read(src, adr, t.word, t.at, t.from) }

  function Of(flight: seq<Read>, k: int): seq<Read> {
    if flight == [] then []
    else (if flight[0].src == k then [flight[0]] else []) + Of(flight[1..], k)
  }

  predicate Legal(c: Cfg, y: Sys, t: Tick) {
    && Shaped(c, y.arb, t.i) && |y.asked| == |y.told| == c.n
    && (t.i.datValid ==> y.flight != [] && 0 <= y.arb.tags[y.arb.rptr] < c.n)
  }

  function Push<T>(lists: seq<seq<T>>, k: int, x: T): seq<seq<T>>
    requires 0 <= k < |lists|
  {
    lists[k := lists[k] + [x]]
  }

  function SysNext(c: Cfg, y: Sys, t: Tick): Sys
    requires Legal(c, y, t)
  {
    var issue := CmdValid(c, y.arb, t.i) && t.i.cmdReady;
    var read := ReadOf(t, y.arb.pick, CmdAdr(c, y.arb, t.i));
    Sys(Next(c, y.arb, t.i),
        (if t.i.datValid then y.flight[1..] else y.flight) + (if issue then [read] else []),
        if issue then Push(y.asked, y.arb.pick, read) else y.asked,
        if t.i.datValid then Push(y.told, y.arb.tags[y.arb.rptr], y.flight[0].word) else y.told)
  }

  // --- The ring holds the tags of the reads in flight ---------------------------------------

  /** Slot k of the ring, counted from the read pointer, names the source of the k-th read in flight. */
  predicate TagAt(tags: seq<int>, rptr: int, flight: seq<Read>, k: int) {
    && 0 <= k < |flight|
    && 0 <= Wrap(rptr + k, |tags|) < |tags|
    && tags[Wrap(rptr + k, |tags|)] == flight[k].src
  }

  predicate RingHolds(c: Cfg, tags: seq<int>, rptr: int, wptr: int, count: int, flight: seq<Read>) {
    && ValidCfg(c) && |tags| == c.depth
    && 0 <= rptr < c.depth
    && 0 <= count == |flight| <= c.depth
    && wptr == Wrap(rptr + count, c.depth)
    && (forall k | 0 <= k < |flight| :: TagAt(tags, rptr, flight, k))
    && (forall k | 0 <= k < |flight| :: 0 <= flight[k].src < c.n)
  }

  predicate RingOk(c: Cfg, s: Regs, flight: seq<Read>) {
    RingHolds(c, s.tags, s.rptr, s.wptr, s.count, flight)
  }

  predicate CountsOk(c: Cfg, s: Regs, flight: seq<Read>) {
    && |s.outst| == c.n
    && forall k | 0 <= k < c.n :: s.outst[k] == |Of(flight, k)| <= c.per
  }

  /** The words told so far answer the first reads asked; `mine` are the rest, still in flight. */
  predicate Told(asked: seq<Read>, told: seq<int>, mine: seq<Read>) {
    && |told| <= |asked|
    && asked[|told|..] == mine
    && forall j | 0 <= j < |told| :: told[j] == asked[j].word
  }

  predicate HistoryOk(c: Cfg, y: Sys) {
    && |y.asked| == |y.told| == c.n
    && forall k | 0 <= k < c.n :: Told(y.asked[k], y.told[k], Of(y.flight, k))
  }

  predicate Inv(c: Cfg, y: Sys) {
    && RingOk(c, y.arb, y.flight) && CountsOk(c, y.arb, y.flight) && HistoryOk(c, y)
    && 0 <= y.arb.pick < c.n && 0 <= y.arb.grant < c.n
  }

  lemma {:induction false} OfAppend(flight: seq<Read>, r: Read, k: int)
    ensures Of(flight + [r], k) == Of(flight, k) + (if r.src == k then [r] else [])
  {
    if flight == [] {
      assert [r][1..] == [];
    } else {
      OfAppend(flight[1..], r, k);
      assert (flight + [r])[1..] == flight[1..] + [r];
    }
  }

  function Popped(flight: seq<Read>, pop: bool): seq<Read>
    requires pop ==> flight != []
  {
    if pop then flight[1..] else flight
  }

  lemma OfPopped(flight: seq<Read>, pop: bool, k: int)
    requires pop ==> flight != []
    ensures Of(Popped(flight, pop), k)
         == (if pop && flight[0].src == k then Of(flight, k)[1..] else Of(flight, k))
    ensures pop && flight[0].src == k ==> Of(flight, k) != [] && flight[0] == Of(flight, k)[0]
  {
  }

  /** A source sees its own reads only: an acknowledgement takes the oldest, an acceptance adds one. */
  lemma OfStep(c: Cfg, y: Sys, t: Tick, k: int)
    requires Inv(c, y) && Legal(c, y, t) && 0 <= k < c.n
    ensures Ack(c, y.arb, t.i, k) ==> Of(y.flight, k) != [] && y.flight[0] == Of(y.flight, k)[0]
    ensures Of(SysNext(c, y, t).flight, k)
         == (if Ack(c, y.arb, t.i, k) then Of(y.flight, k)[1..] else Of(y.flight, k))
            + (if CmdAck(c, y.arb, t.i, k) then [ReadOf(t, k, t.i.adr[k])] else [])
  {
    if t.i.datValid {
      assert TagAt(y.arb.tags, y.arb.rptr, y.flight, 0);
    }
    OfPopped(y.flight, t.i.datValid, k);
    var left := Popped(y.flight, t.i.datValid);
    if Issues(c, y.arb, t.i) {
      var r := ReadOf(t, y.arb.pick, CmdAdr(c, y.arb, t.i));
      OfAppend(left, r, k);
      assert SysNext(c, y, t).flight == left + [r];
    } else {
      assert SysNext(c, y, t).flight == left;
    }
  }

  lemma RingPop(c: Cfg, tags: seq<int>, rptr: int, wptr: int, count: int, flight: seq<Read>)
    requires RingHolds(c, tags, rptr, wptr, count, flight) && flight != []
    ensures RingHolds(c, tags, Bump(rptr, c.depth), wptr, count - 1, flight[1..])
  {
    forall k | 0 <= k < |flight[1..]|
      ensures TagAt(tags, Bump(rptr, c.depth), flight[1..], k)
    {
      assert TagAt(tags, rptr, flight, k + 1);
      assert Wrap(Bump(rptr, c.depth) + k, c.depth) == Wrap(rptr + (k + 1), c.depth);
    }
  }

  lemma RingPush(c: Cfg, tags: seq<int>, rptr: int, wptr: int, count: int, flight: seq<Read>, r: Read)
    requires RingHolds(c, tags, rptr, wptr, count, flight) && count < c.depth && 0 <= r.src < c.n
    ensures RingHolds(c, tags[wptr := r.src], rptr, Bump(wptr, c.depth), count + 1, flight + [r])
  {
    var tags' := tags[wptr := r.src];
    forall k | 0 <= k < |flight + [r]|
      ensures TagAt(tags', rptr, flight + [r], k)
    {
      if k < |flight| {
        assert TagAt(tags, rptr, flight, k) && Wrap(rptr + k, c.depth) != wptr;
      }
    }
  }

  lemma RingMove(c: Cfg, tags: seq<int>, rptr: int, wptr: int, count: int, flight: seq<Read>, pop: bool)
    requires RingHolds(c, tags, rptr, wptr, count, flight) && (pop ==> flight != [])
    ensures RingHolds(c, tags, if pop then Bump(rptr, c.depth) else rptr, wptr, count - B(pop), Popped(flight, pop))
  {
    if pop { RingPop(c, tags, rptr, wptr, count, flight); }
  }

  /** What an accepted command does to the ring, beside a return or alone. */
  lemma IssueMoves(c: Cfg, y: Sys, t: Tick)
    requires Inv(c, y) && Legal(c, y, t) && Issues(c, y.arb, t.i)
    ensures var s, y', r := y.arb, SysNext(c, y, t), ReadOf(t, y.arb.pick, CmdAdr(c, y.arb, t.i));
            && y'.arb.tags == s.tags[s.wptr := r.src] && y'.arb.wptr == Bump(s.wptr, c.depth)
            && y'.arb.rptr == (if t.i.datValid then Bump(s.rptr, c.depth) else s.rptr)
            && y'.arb.count == s.count + 1 - B(t.i.datValid)
            && y'.flight == Popped(y.flight + [r], t.i.datValid)
  {
    var r := ReadOf(t, y.arb.pick, CmdAdr(c, y.arb, t.i));
    if t.i.datValid { assert (y.flight + [r])[1..] == y.flight[1..] + [r]; }
  }

  lemma RingIssue(c: Cfg, y: Sys, t: Tick)
    requires Inv(c, y) && Legal(c, y, t) && Issues(c, y.arb, t.i)
    ensures RingOk(c, SysNext(c, y, t).arb, SysNext(c, y, t).flight)
  {
    var s := y.arb;
    var r := ReadOf(t, s.pick, CmdAdr(c, s, t.i));
    IssueMoves(c, y, t);
    RingPush(c, s.tags, s.rptr, s.wptr, s.count, y.flight, r);
    RingMove(c, s.tags[s.wptr := r.src], s.rptr, Bump(s.wptr, c.depth), s.count + 1, y.flight + [r], t.i.datValid);
  }

  lemma RingRests(c: Cfg, y: Sys, t: Tick)
    requires Inv(c, y) && Legal(c, y, t) && !Issues(c, y.arb, t.i)
    ensures RingOk(c, SysNext(c, y, t).arb, SysNext(c, y, t).flight)
  {
    var s := y.arb;
    RingMove(c, s.tags, s.rptr, s.wptr, s.count, y.flight, t.i.datValid);
    assert SysNext(c, y, t).flight == Popped(y.flight, t.i.datValid);
  }

  lemma RingStep(c: Cfg, y: Sys, t: Tick)
    requires Inv(c, y) && Legal(c, y, t)
    ensures RingOk(c, SysNext(c, y, t).arb, SysNext(c, y, t).flight)
  {
    if Issues(c, y.arb, t.i) { RingIssue(c, y, t); } else { RingRests(c, y, t); }
  }

  lemma CountsStep(c: Cfg, y: Sys, t: Tick)
    requires Inv(c, y) && Legal(c, y, t)
    ensures CountsOk(c, SysNext(c, y, t).arb, SysNext(c, y, t).flight)
  {
    var y' := SysNext(c, y, t);
    forall k | 0 <= k < c.n
      ensures y'.arb.outst[k] == |Of(y'.flight, k)| <= c.per
    {
      OfStep(c, y, t, k);
    }
  }

  lemma HistoryOf(asked: seq<Read>, told: seq<int>, mine: seq<Read>, ack: bool, ask: seq<Read>)
    requires Told(asked, told, mine) && (ack ==> mine != [])
    ensures Told(asked + ask,
                 if ack then told + [mine[0].word] else told,
                 (if ack then mine[1..] else mine) + ask)
  {
    if ack {
      assert asked[|told|] == mine[0];
      assert asked[|told| + 1..] == mine[1..];
      assert (asked + ask)[|told| + 1..] == mine[1..] + ask;
    } else {
      assert (asked + ask)[|told|..] == mine + ask;
    }
  }

  lemma HistoryStep(c: Cfg, y: Sys, t: Tick)
    requires Inv(c, y) && Legal(c, y, t)
    ensures HistoryOk(c, SysNext(c, y, t))
  {
    var y' := SysNext(c, y, t);
    forall k | 0 <= k < c.n
      ensures Told(y'.asked[k], y'.told[k], Of(y'.flight, k))
    {
      OfStep(c, y, t, k);
      var ask := if CmdAck(c, y.arb, t.i, k) then [ReadOf(t, k, t.i.adr[k])] else [];
      HistoryOf(y.asked[k], y.told[k], Of(y.flight, k), Ack(c, y.arb, t.i, k), ask);
      assert y'.asked[k] == y.asked[k] + ask;
    }
  }

  lemma StepInv(c: Cfg, y: Sys, t: Tick)
    requires Inv(c, y) && Legal(c, y, t)
    ensures Inv(c, SysNext(c, y, t))
  {
    RingStep(c, y, t);
    CountsStep(c, y, t);
    HistoryStep(c, y, t);
  }

  // --- Runs ---------------------------------------------------------------------------------

  function SysReset(c: Cfg): Sys
    requires ValidCfg(c)
  {
    Sys(Reset(c), [], seq(c.n, k => []), seq(c.n, k => []))
  }

  ghost predicate IsRun(c: Cfg, run: seq<Sys>, ticks: seq<Tick>) {
    && ValidCfg(c)
    && |run| == |ticks| + 1
    && run[0] == SysReset(c)
    && forall t | 0 <= t < |ticks| :: Legal(c, run[t], ticks[t]) && run[t + 1] == SysNext(c, run[t], ticks[t])
  }

  lemma {:induction false} RunInv(c: Cfg, run: seq<Sys>, ticks: seq<Tick>, t: int)
    requires IsRun(c, run, ticks) && 0 <= t < |run|
    ensures Inv(c, run[t])
  {
    if t > 0 {
      RunInv(c, run, ticks, t - 1);
      StepInv(c, run[t - 1], ticks[t - 1]);
    }
  }

  /** ROUTING. For any latency, stalls and interleaving, the j-th word acknowledged to a source is the
      word its own j-th accepted address held when the memory took it. */
  lemma WordsReachTheirSource(c: Cfg, run: seq<Sys>, ticks: seq<Tick>, t: int, k: int)
    requires IsRun(c, run, ticks) && 0 <= t < |run| && 0 <= k < c.n
    ensures var y := run[t];
            && |y.told| == |y.asked| == c.n && |y.told[k]| <= |y.asked[k]|
            && forall j | 0 <= j < |y.told[k]| :: y.asked[k][j].src == k && y.told[k][j] == y.asked[k][j].word
  {
    RunInv(c, run, ticks, t);
    var y := run[t];
    assert Told(y.asked[k], y.told[k], Of(y.flight, k));
    AskedAreOwn(c, run, ticks, t, k);
  }

  predicate Own(list: seq<Read>, k: int) { forall j | 0 <= j < |list| :: list[j].src == k }

  lemma AskedStep(c: Cfg, y: Sys, t: Tick, k: int)
    requires Legal(c, y, t) && 0 <= k < c.n && Own(y.asked[k], k)
    ensures |SysNext(c, y, t).asked| == c.n && Own(SysNext(c, y, t).asked[k], k)
  {
  }

  lemma {:induction false} AskedAreOwn(c: Cfg, run: seq<Sys>, ticks: seq<Tick>, t: int, k: int)
    requires IsRun(c, run, ticks) && 0 <= t < |run| && 0 <= k < c.n
    ensures |run[t].asked| == c.n && Own(run[t].asked[k], k)
  {
    if t > 0 {
      AskedAreOwn(c, run, ticks, t - 1, k);
      AskedStep(c, run[t - 1], ticks[t - 1], k);
    }
  }

  // --- Accounting ---------------------------------------------------------------------------

  function Sum(a: seq<int>): int { if a == [] then 0 else a[0] + Sum(a[1..]) }

  function Counts(flight: seq<Read>, n: int): seq<int>
    requires 0 <= n
  {
    seq(n, k => |Of(flight, k)|)
  }

  lemma {:induction false} SumBump(a: seq<int>, k: int, d: int)
    requires 0 <= k < |a|
    ensures Sum(a[k := a[k] + d]) == Sum(a) + d
  {
    if k == 0 {
      assert a[0 := a[0] + d][1..] == a[1..];
    } else {
      SumBump(a[1..], k - 1, d);
      assert a[k := a[k] + d][1..] == a[1..][k - 1 := a[1..][k - 1] + d];
    }
  }

  lemma {:induction false} SumZero(a: seq<int>)
    requires forall k | 0 <= k < |a| :: a[k] == 0
    ensures Sum(a) == 0
  {
    if a != [] { SumZero(a[1..]); }
  }

  lemma {:induction false} CountsSum(flight: seq<Read>, n: int)
    requires 0 <= n && forall k | 0 <= k < |flight| :: 0 <= flight[k].src < n
    ensures Sum(Counts(flight, n)) == |flight|
  {
    if flight == [] {
      SumZero(Counts(flight, n));
    } else {
      var rest := Counts(flight[1..], n);
      var k := flight[0].src;
      CountsSum(flight[1..], n);
      SumBump(rest, k, 1);
      assert Counts(flight, n) == rest[k := rest[k] + 1];
    }
  }

  lemma {:induction false} SumBelow(a: seq<int>, per: int, k: int)
    requires forall j | 0 <= j < |a| :: a[j] <= per
    requires 0 <= k < |a| && a[k] < per
    ensures Sum(a) < |a| * per
  {
    if k == 0 {
      SumAtMost(a[1..], per);
    } else {
      SumBelow(a[1..], per, k - 1);
    }
    assert |a| * per == per + (|a| - 1) * per;
  }

  lemma {:induction false} SumAtMost(a: seq<int>, per: int)
    requires forall j | 0 <= j < |a| :: a[j] <= per
    ensures Sum(a) <= |a| * per
  {
    if a != [] {
      SumAtMost(a[1..], per);
      assert |a| * per == per + (|a| - 1) * per;
    }
  }

  /** ACCOUNTING. In every run each counter is the number of that source's tags in the ring, and the
      counters add up to the ring's fill. */
  lemma CountersAccountForTheRing(c: Cfg, run: seq<Sys>, ticks: seq<Tick>, t: int)
    requires IsRun(c, run, ticks) && 0 <= t < |run|
    ensures var s := run[t].arb;
            && s.outst == Counts(run[t].flight, c.n)
            && Sum(s.outst) == s.count == |run[t].flight|
            && |s.tags| == c.depth
            && (forall k | 0 <= k < s.count :: TagAt(s.tags, s.rptr, run[t].flight, k))
  {
    RunInv(c, run, ticks, t);
    assert run[t].arb.outst == Counts(run[t].flight, c.n);
    CountsSum(run[t].flight, c.n);
  }

  lemma RoomForEligible(c: Cfg, y: Sys, i: In, k: int)
    requires Inv(c, y) && Shaped(c, y.arb, i) && 0 <= k < c.n && c == DefaultCfg(c.n, c.per, c.sticky)
    requires Eligible(c, y.arb, i, k)
    ensures y.arb.count < c.depth
  {
    assert y.arb.outst == Counts(y.flight, c.n);
    CountsSum(y.flight, c.n);
    SumBelow(y.arb.outst, c.per, k);
  }

  /** With the default depth the ring's full guard never turns an eligible source away. */
  lemma FullGuardNeverBlocks(c: Cfg, run: seq<Sys>, ticks: seq<Tick>, t: int, k: int)
    requires IsRun(c, run, ticks) && 0 <= t < |ticks| && 0 <= k < c.n
    requires c == DefaultCfg(c.n, c.per, c.sticky)
    requires Eligible(c, run[t].arb, ticks[t].i, k)
    ensures run[t].arb.count < c.depth
  {
    RunInv(c, run, ticks, t);
    RoomForEligible(c, run[t], ticks[t].i, k);
  }

  /** The registered choice is an eligible source whenever one exists at or after step k of the
      rotation, so `armed` and the choice can never disagree. */
  lemma {:induction false} ChainFindsEligible(c: Cfg, s: Regs, i: In, k: int, j: int)
    requires Shaped(c, s, i) && 0 <= k <= j < c.n
    requires Eligible(c, s, i, Wrap(s.grant + j, c.n))
    ensures Eligible(c, s, i, Choose(c, s, i, k))
    decreases c.n - k
  {
    if k < j {
      ChainFindsEligible(c, s, i, k + 1, j);
    }
  }
}
