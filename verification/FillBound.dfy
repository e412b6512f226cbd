/** No output is starved: with a memory that keeps taking commands and answers them, every fill ends in time, however
    the outputs compete. */
module FillBound {
  import A = Arbiter
  import PS = PixelSource
  import SP = Spwm
  import TS = ThreeSlots
  import Pacing
  import Fairness
  import FillTime
  import Deadline
  import ScanOut
  import opened FetchUnit
  import opened FetchInv
  import opened FetchPath
  import opened Routing

  // --- The arbiter in a run of the path -----------------------------------------------------

  function Arbiters(run: seq<Path>): seq<A.Regs> { seq(|run|, t requires 0 <= t < |run| => run[t].y.arb) }

  const NO_REQUESTS: A.In := A.In([], [], [], false, false)

  function AsksIn(b: Build, p: Path, e: Env): A.In { if Wired(b, p, e) then Requests(b, p, e) else NO_REQUESTS }

  function Asks(b: Build, run: seq<Path>, envs: seq<Env>): seq<A.In>
    requires |run| == |envs| + 1
  {
    seq(|envs|, t requires 0 <= t < |envs| => AsksIn(b, run[t], envs[t]))
  }

  lemma ArbiterCycle(b: Build, run: seq<Path>, envs: seq<Env>, t: nat)
    requires IsPathRun(b, run, envs) && t < |envs|
    ensures Wired(b, run[t], envs[t]) && Asks(b, run, envs)[t] == Requests(b, run[t], envs[t])
    ensures Fairness.CycleAt(b.arb, Arbiters(run), Asks(b, run, envs), t)
  {
    CycleOf(b, run, envs, t);
  }

  lemma ArbiterStretch(b: Build, run: seq<Path>, envs: seq<Env>)
    requires IsPathRun(b, run, envs)
    ensures Fairness.IsStretch(b.arb, Arbiters(run), Asks(b, run, envs))
  {
    forall t | 0 <= t < |envs|
      ensures Fairness.CycleAt(b.arb, Arbiters(run), Asks(b, run, envs), t)
    {
      ArbiterCycle(b, run, envs, t);
    }
  }

  // --- Places in the runs -------------------------------------------------------------------

  /** How many commands of its present run an output has had taken. */
  function Place(u: Unit): int { if u.src.tx.fsm == PS.Issue then u.src.tx.j else 0 }

  function Places(units: seq<Unit>, n: nat): int
    requires n <= |units|
  {
    if n == 0 then 0 else Places(units, n - 1) + Place(units[n - 1])
  }

  predicate SamePlace(us: seq<Unit>, vs: seq<Unit>, k: nat)
    requires k < |us| && k < |vs|
  {
    Place(us[k]) == Place(vs[k])
  }

  lemma {:induction false} OnePlaceMoves(us: seq<Unit>, vs: seq<Unit>, n: nat, p: nat)
    requires n <= |us| && n <= |vs| && p < |us| && p < |vs|
    requires forall k: nat | k < n && k != p :: SamePlace(us, vs, k)
    ensures Places(vs, n) == Places(us, n) + (if p < n then Place(vs[p]) - Place(us[p]) else 0)
  {
    if n > 0 {
      OnePlaceMoves(us, vs, n - 1, p);
      assert n - 1 != p ==> SamePlace(us, vs, n - 1);
    }
  }

  predicate PlaceBelow(us: seq<Unit>, k: nat, most: nat)
    requires k < |us|
  {
    0 <= Place(us[k]) <= most
  }

  lemma {:induction false} PlacesBelow(us: seq<Unit>, n: nat, most: nat)
    requires n <= |us| && forall k: nat | k < n :: PlaceBelow(us, k, most)
    ensures 0 <= Places(us, n) <= n * most
  {
    if n > 0 {
      PlacesBelow(us, n - 1, most);
      assert PlaceBelow(us, n - 1, most) && n * most == (n - 1) * most + most;
    }
  }

  /** Only a command taken moves an output's place; the last one of a run moves it back to the start. */
  lemma PlaceStep(c: PS.Cfg, u: Unit, i: In, flight: seq<Read>)
    requires UnitInv(c, u, flight, i.now) && Contract(c, u, i, flight) && Shaped(c, u, i)
    ensures var last := PS.MemLast(c, u.src);
            Place(Next(c, u, i)) == if !i.cmdAck then Place(u) else if last then 0 else Place(u) + 1
    ensures 0 <= Place(u) < 2 * c.block && (PS.MemLast(c, u.src) ==> Place(u) == 2 * c.block - 1)
  {
    var t := u.src.tx;
    assert u.lb.q.filling ==> SenderOk(c, t, u.from, JobOf(u), Sent(u.lb.q, c.columns));
  }

  /** No run is longer than `most` commands. */
  predicate RunsUpTo(b: Build, most: nat) { forall k | 0 <= k < |b.outputs| :: 2 * b.outputs[k].block <= most }

  lemma PlaceOf(b: Build, run: seq<Path>, envs: seq<Env>, k: nat, t: nat)
    requires IsPathRun(b, run, envs) && k < b.arb.n && t < |envs|
    ensures k < |run[t].units| && k < |run[t + 1].units| && k < |b.outputs| && Wired(b, run[t], envs[t])
    ensures var c, u, ack := b.outputs[k], run[t].units[k], UnitIn(b, run[t], envs[t], k).cmdAck;
            && Place(run[t + 1].units[k]) == (if !ack then Place(u) else if PS.MemLast(c, u.src) then 0 else Place(u) + 1)
            && 0 <= Place(u) < 2 * c.block && (PS.MemLast(c, u.src) ==> Place(u) == 2 * c.block - 1)
  {
    FillTime.UnitCycle(b, run, envs, k, t);
    FillTime.UnitAt(b, run, envs, k, t);
    PlaceStep(b.outputs[k], run[t].units[k], UnitIn(b, run[t], envs[t], k), Of(run[t].y.flight, k));
  }

  lemma PlacesStep(b: Build, run: seq<Path>, envs: seq<Env>, most: nat, t: nat)
    requires IsPathRun(b, run, envs) && t < |envs| && RunsUpTo(b, most)
    ensures |run[t].units| == |run[t + 1].units| == b.arb.n
    ensures var before, after := Places(run[t].units, b.arb.n), Places(run[t + 1].units, b.arb.n);
            if !Fairness.TakesAt(b.arb, Arbiters(run), Asks(b, run, envs), t) then after == before
            else if Fairness.RunEnds(b.arb, Arbiters(run), Asks(b, run, envs), t) then after + most >= before + 1
            else after == before + 1
  {
    ArbiterCycle(b, run, envs, t);
    CycleOf(b, run, envs, t);
    var p, us, vs := run[t].y.arb.pick, run[t].units, run[t + 1].units;
    forall k: nat | k < b.arb.n && k != p
      ensures SamePlace(us, vs, k)
    {
      PlaceOf(b, run, envs, k, t);
    }
    PlaceOf(b, run, envs, p, t);
    OnePlaceMoves(us, vs, b.arb.n, p);
  }

  lemma OneMoreRun(most: nat, n: nat)
    ensures most * (n + 1) == most * n + most
  {
  }

  lemma UnitCount(b: Build, run: seq<Path>, envs: seq<Env>, t: nat)
    requires IsPathRun(b, run, envs) && t < |run|
    ensures |run[t].units| == b.arb.n
  {
    PathRunInv(b, run, envs, t);
  }

  /** Commands taken, counted by runs ended and places moved. */
  predicate Counted(b: Build, run: seq<Path>, envs: seq<Env>, most: nat, s: nat, t: nat)
    requires s <= t <= |envs| && |run| == |envs| + 1 && |run[s].units| == |run[t].units| == b.arb.n
  {
    var arbs, asks := Arbiters(run), Asks(b, run, envs);
    Fairness.TakenIn(b.arb, arbs, asks, s, t) + Places(run[s].units, b.arb.n)
    <= most * Fairness.RunsIn(b.arb, arbs, asks, s, t) + Places(run[t].units, b.arb.n)
  }

  lemma CountedStep(b: Build, run: seq<Path>, envs: seq<Env>, most: nat, s: nat, t: nat)
    requires IsPathRun(b, run, envs) && s <= t < |envs| && RunsUpTo(b, most)
    requires |run[s].units| == |run[t].units| == |run[t + 1].units| == b.arb.n && Counted(b, run, envs, most, s, t)
    ensures Counted(b, run, envs, most, s, t + 1)
  {
    var arbs, asks := Arbiters(run), Asks(b, run, envs);
    PlacesStep(b, run, envs, most, t);
    OneMoreRun(most, Fairness.RunsIn(b.arb, arbs, asks, s, t));
    assert Fairness.RunEnds(b.arb, arbs, asks, t) ==> Fairness.TakesAt(b.arb, arbs, asks, t);
  }

  lemma {:induction false} CommandsAreRuns(b: Build, run: seq<Path>, envs: seq<Env>, most: nat, s: nat, t: nat)
    requires IsPathRun(b, run, envs) && s <= t <= |envs| && RunsUpTo(b, most)
    ensures |run[s].units| == |run[t].units| == b.arb.n && Counted(b, run, envs, most, s, t)
  {
    UnitCount(b, run, envs, t);
    if t > s {
      CommandsAreRuns(b, run, envs, most, s, t - 1);
      CountedStep(b, run, envs, most, s, t - 1);
    }
  }

  lemma PlacesAt(b: Build, run: seq<Path>, envs: seq<Env>, most: nat, t: nat)
    requires IsPathRun(b, run, envs) && t < |envs| && RunsUpTo(b, most)
    ensures |run[t].units| == b.arb.n && 0 <= Places(run[t].units, b.arb.n) <= b.arb.n * most
  {
    PathRunInv(b, run, envs, t);
    forall k: nat | k < b.arb.n
      ensures PlaceBelow(run[t].units, k, most)
    {
      PlaceOf(b, run, envs, k, t);
    }
    PlacesBelow(run[t].units, b.arb.n, most);
  }

  // --- An output that waits -----------------------------------------------------------------

  /** Output k waits in every cycle from s to t. */
  predicate WaitsOn(b: Build, run: seq<Path>, envs: seq<Env>, k: nat, s: nat, t: nat)
    requires t <= |envs| && |run| == |envs| + 1
  {
    forall u: nat | s <= u < t :: FillTime.WaitsAt(b, run, envs, k, u)
  }

  lemma {:induction false} WaitedOn(b: Build, run: seq<Path>, envs: seq<Env>, k: nat, t: nat)
    requires t <= |envs| && |run| == |envs| + 1
    ensures FillTime.Waited(b, run, envs, k, t) <= t && WaitsOn(b, run, envs, k, t - FillTime.Waited(b, run, envs, k, t), t)
  {
    if t > 0 && FillTime.WaitsAt(b, run, envs, k, t - 1) { WaitedOn(b, run, envs, k, t - 1); }
  }

  lemma {:induction false} NoneComes(b: Build, run: seq<Path>, envs: seq<Env>, k: nat, s: nat, t: nat)
    requires IsPathRun(b, run, envs) && k < b.arb.n && s <= t < |run| && WaitsOn(b, run, envs, k, s, t)
    ensures FillTime.TakenBefore(run, k, s, t)
  {
    if t == s {
      FillTime.TakenAlready(b, run, envs, k, t);
    } else {
      NoneComes(b, run, envs, k, s, t - 1);
      FillTime.OnlyLeave(b, run, envs, k, s, t - 1);
    }
  }

  /** An output that has waited long enough has nothing in flight, so it may be served. */
  lemma MayBeServed(b: Build, run: seq<Path>, envs: seq<Env>, k: nat, latency: nat, s: nat, u: nat)
    requires IsPathRun(b, run, envs) && k < b.arb.n && s + latency <= u < |envs| && WaitsOn(b, run, envs, k, s, u + 1)
    requires FillTime.Returned(run, k, latency)
    ensures Wired(b, run[u], envs[u]) && A.Eligible(b.arb, run[u].y.arb, Requests(b, run[u], envs[u]), k)
    ensures Fairness.WaitsAt(b.arb, Arbiters(run), Asks(b, run, envs), k, u)
  {
    NoneComes(b, run, envs, k, s, u);
    assert FillTime.NotStale(run, k, latency, u) && FillTime.WaitsAt(b, run, envs, k, u);
    FillTime.NoneIsOld(run, k, latency, s, u);
    ArbiterCycle(b, run, envs, u);
    PathRunInv(b, run, envs, u);
  }

  lemma StaysEligible(b: Build, run: seq<Path>, envs: seq<Env>, j: nat, t: nat)
    requires IsPathRun(b, run, envs) && t + 1 < |envs| && j < b.arb.n
    requires Wired(b, run[t], envs[t]) && Wired(b, run[t + 1], envs[t + 1])
    requires var i := Requests(b, run[t], envs[t]); A.Eligible(b.arb, run[t].y.arb, i, j) && !A.Issues(b.arb, run[t].y.arb, i)
    ensures A.Eligible(b.arb, run[t + 1].y.arb, Requests(b, run[t + 1], envs[t + 1]), j)
  {
    FillTime.UnitCycle(b, run, envs, j, t);
    CycleOf(b, run, envs, t);
    var s, s', i := run[t].y.arb, run[t + 1].y.arb, Requests(b, run[t], envs[t]);
    assert s.outst[j] == |Of(run[t].y.flight, j)| <= b.arb.per;
    assert s' == A.Next(b.arb, s, i) && s'.outst[j] <= s.outst[j];
  }

  /** In a cycle that takes nothing, whoever could be served can be served in the next. */
  lemma NobodyDropsOut(b: Build, run: seq<Path>, envs: seq<Env>, t: nat)
    requires IsPathRun(b, run, envs) && t + 1 < |envs| && !Fairness.TakesAt(b.arb, Arbiters(run), Asks(b, run, envs), t)
    ensures Fairness.KeepsAsking(b.arb, run[t].y.arb, Asks(b, run, envs)[t], run[t + 1].y.arb, Asks(b, run, envs)[t + 1])
  {
    ArbiterCycle(b, run, envs, t);
    ArbiterCycle(b, run, envs, t + 1);
    var i, i' := Requests(b, run[t], envs[t]), Requests(b, run[t + 1], envs[t + 1]);
    forall j | 0 <= j < b.arb.n && A.Eligible(b.arb, run[t].y.arb, i, j)
      ensures A.Eligible(b.arb, run[t + 1].y.arb, i', j)
    {
      StaysEligible(b, run, envs, j, t);
    }
  }

  lemma WindowAsks(b: Build, run: seq<Path>, envs: seq<Env>, k: nat, latency: nat, s: nat, t: nat)
    requires IsPathRun(b, run, envs) && k < b.arb.n && t <= |envs| && WaitsOn(b, run, envs, k, s, t)
    requires FillTime.Returned(run, k, latency) && b.arb == A.DefaultCfg(b.arb.n, b.arb.per, b.arb.sticky)
    ensures Fairness.Waits(b.arb, Arbiters(run), Asks(b, run, envs), k, s + latency, t)
    ensures Fairness.AskOn(b.arb, Arbiters(run), Asks(b, run, envs), s + latency, t)
  {
    var arbs, asks := Arbiters(run), Asks(b, run, envs);
    forall u: nat | s + latency <= u < t
      ensures Fairness.WaitsAt(b.arb, arbs, asks, k, u)
    {
      MayBeServed(b, run, envs, k, latency, s, u);
    }
    forall u: nat | s + latency <= u && u + 1 < t
      ensures Fairness.AsksOn(b.arb, arbs, asks, u)
    {
      if !Fairness.TakesAt(b.arb, arbs, asks, u) {
        NobodyDropsOut(b, run, envs, u);
        MayBeServed(b, run, envs, k, latency, s, u + 1);
        PathRunInv(b, run, envs, u + 1);
        RoomForEligible(b.arb, run[u + 1].y, Requests(b, run[u + 1], envs[u + 1]), k);
      }
    }
  }

  // --- The bound ----------------------------------------------------------------------------

  /** What an output may have to wait for: its last words, a round of everybody's runs, and the memory each time. */
  function LongestWait(n: nat, most: nat, ready: nat, latency: nat): nat { latency + Round(n, most, ready) + ready + 2 }

  /** Everybody's run under way and one more each, command by command. */
  function Round(n: nat, most: nat, ready: nat): nat { 2 * (n * most) * (ready + 1) }

  lemma InRounds(n: nat, most: nat, runs: nat, taken: nat, ready: nat)
    requires runs <= n && taken <= most * runs + n * most
    ensures taken * (ready + 1) <= Round(n, most, ready)
  {
    assert most * runs <= most * n;
    assert taken <= 2 * (n * most);
  }

  /** NOBODY IS STARVED. If the memory never lets commands wait for `ready` cycles in a row and answers within
      `latency`, no command of any output waits longer than this, however the outputs compete. */
  lemma NoOutputIsStarved(b: Build, run: seq<Path>, envs: seq<Env>, k: nat, most: nat, ready: nat, latency: nat)
    requires IsPathRun(b, run, envs) && k < b.arb.n && RunsUpTo(b, most)
    requires b.arb == A.DefaultCfg(b.arb.n, b.arb.per, true)
    requires Fairness.TakesWithin(b.arb, Arbiters(run), Asks(b, run, envs), ready) && FillTime.Returned(run, k, latency)
    ensures FillTime.Served(b, run, envs, k, LongestWait(b.arb.n, most, ready, latency))
  {
    forall t: nat | t <= |envs|
      ensures FillTime.Waited(b, run, envs, k, t) < LongestWait(b.arb.n, most, ready, latency)
    {
      WaitIsBounded(b, run, envs, k, most, ready, latency, Round(b.arb.n, most, ready), t);
    }
  }

  /** While an output waits that could be served, a round goes by. */
  lemma RoundGoesBy(b: Build, run: seq<Path>, envs: seq<Env>, k: nat, most: nat, ready: nat, s: nat, t: nat)
    requires IsPathRun(b, run, envs) && RunsUpTo(b, most) && b.arb.sticky && s < t < |envs|
    requires var arbs, asks := Arbiters(run), Asks(b, run, envs);
             && Fairness.TakesWithin(b.arb, arbs, asks, ready)
             && Fairness.Waits(b.arb, arbs, asks, k, s, t) && Fairness.AskOn(b.arb, arbs, asks, s, t)
    ensures t - s <= Round(b.arb.n, most, ready) + ready
  {
    var arbs, asks := Arbiters(run), Asks(b, run, envs);
    ArbiterStretch(b, run, envs);
    Fairness.NoMoreThanARound(b.arb, arbs, asks, k, s, t);
    Fairness.CommandsTakeTime(b.arb, arbs, asks, k, s, t, ready);
    CommandsAreRuns(b, run, envs, most, s, t);
    PlacesAt(b, run, envs, most, s);
    PlacesAt(b, run, envs, most, t);
    InRounds(b.arb.n, most, Fairness.RunsIn(b.arb, arbs, asks, s, t), Fairness.TakenIn(b.arb, arbs, asks, s, t), ready);
  }

  lemma WaitIsBounded(b: Build, run: seq<Path>, envs: seq<Env>, k: nat, most: nat, ready: nat, latency: nat, round: nat, t: nat)
    requires IsPathRun(b, run, envs) && k < b.arb.n && RunsUpTo(b, most) && t <= |envs|
    requires b.arb == A.DefaultCfg(b.arb.n, b.arb.per, true) && round == Round(b.arb.n, most, ready)
    requires Fairness.TakesWithin(b.arb, Arbiters(run), Asks(b, run, envs), ready) && FillTime.Returned(run, k, latency)
    ensures FillTime.Waited(b, run, envs, k, t) < latency + round + ready + 2
  {
    var s := t - FillTime.Waited(b, run, envs, k, t);
    WaitedOn(b, run, envs, k, t);
    if s + latency + 1 < t {
      WindowAsks(b, run, envs, k, latency, s, t);
      RoundGoesBy(b, run, envs, k, most, ready, s + latency, t - 1);
    }
  }

  /** The longest time of a fill of n blocks. */
  function LongestFill(n: nat, block: nat, wait: nat, latency: nat): nat { n * (3 + wait * (4 * block)) + wait + latency + 1 }

  /** EVERY FILL ENDS IN TIME. The time of a fill from the memory alone: how long it lets a command wait, and how long
      its answer takes. */
  lemma EveryFillEnds(b: Build, run: seq<Path>, envs: seq<Env>, k: nat, most: nat, ready: nat, latency: nat, n: nat, fill: nat)
    requires IsPathRun(b, run, envs) && k < b.arb.n && k < |b.outputs| && RunsUpTo(b, most)
    requires b.arb == A.DefaultCfg(b.arb.n, b.arb.per, true) && b.outputs[k].columns == n * b.outputs[k].block
    requires Fairness.TakesWithin(b.arb, Arbiters(run), Asks(b, run, envs), ready) && FillTime.Returned(run, k, latency)
    requires 1 <= b.outputs[k].block && fill == LongestFill(n, b.outputs[k].block, LongestWait(b.arb.n, most, ready, latency), latency)
    ensures Deadline.FastFills(ScanOut.Buffers(run, k), fill)
  {
    NoOutputIsStarved(b, run, envs, k, most, ready, latency);
    FillTime.FillsAreFast(b, run, envs, k, LongestWait(b.arb.n, most, ready, latency), latency, n, fill);
  }

  /** IN TIME, FROM THE MEMORY ALONE. If a fill's longest time, so computed, fits in the part of a row before the next
      row is first read, every read of the stage after the first row finds its slot complete. */
  lemma MemoryIsFastEnough(b: Build, run: seq<Path>, envs: seq<Env>, k: nat, c: SP.Cfg, d: int, cards: seq<Pacing.Card>,
                           pins: seq<SP.In>, most: nat, ready: nat, latency: nat, n: nat, t: nat)
    requires ScanOut.Linked(b, run, envs, k, c, d, cards, pins) && k < |b.outputs| && RunsUpTo(b, most) && t < |envs|
    requires b.arb == A.DefaultCfg(b.arb.n, b.arb.per, true) && b.outputs[k].columns == n * b.outputs[k].block
    requires Fairness.TakesWithin(b.arb, Arbiters(run), Asks(b, run, envs), ready) && FillTime.Returned(run, k, latency)
    requires 1 <= b.outputs[k].block
    requires LongestFill(n, b.outputs[k].block, LongestWait(b.arb.n, most, ready, latency), latency) + 2
             <= d * SP.Columns(c) * (16 - c.order.adv)
    requires TS.Reading(ScanOut.Views(b, run, envs, k), t) >= 1
    ensures Fits(b, run[t], envs[t]) && PrimedIn(b, run[t], envs[t], k)
  {
    var fill := LongestFill(n, b.outputs[k].block, LongestWait(b.arb.n, most, ready, latency), latency);
    EveryFillEnds(b, run, envs, k, most, ready, latency, n, fill);
    ScanOut.NoReadIsEarly(b, run, envs, k, c, d, cards, pins, fill, t);
  }
}
