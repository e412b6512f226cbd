/** Whose turn it is: the arbiter's choice is the first in rotation; with run keeping no source waits for more than
    one run of each other source, and without it a source can starve. */
module Fairness {
  import opened Arbiter

  // --- The choice ---------------------------------------------------------------------------

  /** The j-th source from the grant on, round the ring. */
  function Nth(c: Cfg, s: Regs, j: int): int { if s.grant + j < c.n then s.grant + j else s.grant + j - c.n }

  predicate CanServe(c: Cfg, s: Regs, i: In, j: int)
    requires Shaped(c, s, i) && 0 <= j < c.n
  {
    var k := Nth(c, s, j);
    i.req[k] && s.outst[k] != c.per
  }

  lemma {:induction false} ChainSkips(c: Cfg, s: Regs, i: In, k: int, m: int)
    requires Shaped(c, s, i) && 0 <= k <= m < c.n && CanServe(c, s, i, m)
    requires forall j | k <= j < m :: !CanServe(c, s, i, j)
    ensures Choose(c, s, i, k) == Nth(c, s, m)
    decreases m - k
  {
    if k < m {
      assert !CanServe(c, s, i, k);
      ChainSkips(c, s, i, k + 1, m);
    }
  }

  /** FIRST IN ROTATION: if the m-th source from the grant on asks and has room, and none before it does, it is the
      choice for the next cycle. */
  lemma ChoiceIsFirst(c: Cfg, s: Regs, i: In, m: int)
    requires Shaped(c, s, i) && 0 <= m < c.n && CanServe(c, s, i, m)
    requires forall j | 0 <= j < m :: !CanServe(c, s, i, j)
    ensures Next(c, s, i).pick == Nth(c, s, m) && Next(c, s, i).armed
  {
    ChainSkips(c, s, i, 0, m);
    assert Eligible(c, s, i, Nth(c, s, m));
  }

  // --- Turns --------------------------------------------------------------------------------

  /** Steps round the ring from g to k. */
  function Dist(c: Cfg, g: int, k: int): int { if k >= g then k - g else k - g + c.n }

  predicate CycleAt(c: Cfg, run: seq<Regs>, ins: seq<In>, t: nat)
    requires t < |ins| && |run| == |ins| + 1
  {
    Shaped(c, run[t], ins[t]) && run[t + 1] == Next(c, run[t], ins[t])
  }

  /** Any stretch of the arbiter's life. */
  predicate IsStretch(c: Cfg, run: seq<Regs>, ins: seq<In>) {
    |run| == |ins| + 1 && forall t | 0 <= t < |ins| :: CycleAt(c, run, ins, t)
  }

  /** Source k waits: it could be served in every cycle from s to t, and is not. */
  predicate WaitsAt(c: Cfg, run: seq<Regs>, ins: seq<In>, k: int, u: nat)
    requires u < |ins| && |run| == |ins| + 1
  {
    Shaped(c, run[u], ins[u]) && 0 <= k < c.n && Eligible(c, run[u], ins[u], k) && !CmdAck(c, run[u], ins[u], k)
  }

  predicate Waits(c: Cfg, run: seq<Regs>, ins: seq<In>, k: int, s: nat, t: nat)
    requires t <= |ins| && |run| == |ins| + 1
  {
    forall u: nat | s <= u < t :: WaitsAt(c, run, ins, k, u)
  }

  /** A source's run ends in cycle u: its last command is taken. */
  predicate RunEnds(c: Cfg, run: seq<Regs>, ins: seq<In>, u: nat)
    requires u < |ins| && |run| == |ins| + 1
  {
    Shaped(c, run[u], ins[u]) && Issues(c, run[u], ins[u]) && ins[u].last[run[u].pick]
  }

  function RunsIn(c: Cfg, run: seq<Regs>, ins: seq<In>, s: nat, t: nat): nat
    requires s <= t <= |ins| && |run| == |ins| + 1
  {
    if s == t then 0 else RunsIn(c, run, ins, s, t - 1) + (if RunEnds(c, run, ins, t - 1) then 1 else 0)
  }

  lemma {:induction false} ChoiceIsNear(c: Cfg, s: Regs, i: In, k: int, at: int)
    requires Shaped(c, s, i) && 0 <= k < c.n && Eligible(c, s, i, k) && 0 <= at <= Dist(c, s.grant, k)
    ensures Dist(c, Choose(c, s, i, at), k) <= Dist(c, s.grant, k)
    decreases c.n - at
  {
    var cand := Wrap(s.grant + at, c.n);
    if !(at == c.n - 1 || Eligible(c, s, i, cand)) { ChoiceIsNear(c, s, i, k, at + 1); }
  }

  /** How far source k can still be from its turn, whichever way the next choice was made. */
  function Far(c: Cfg, before: Regs, s: Regs, k: int): int {
    if s.bubble then Dist(c, s.grant, k) else Max(Dist(c, before.grant, k), Dist(c, s.grant, k))
  }

  lemma TurnComes(c: Cfg, before: Regs, i0: In, s: Regs, i: In, k: int)
    requires c.sticky && Shaped(c, before, i0) && s == Next(c, before, i0) && Shaped(c, s, i) && 0 <= k < c.n
    requires Eligible(c, before, i0, k) && !CmdAck(c, s, i, k)
    ensures Far(c, s, Next(c, s, i), k) + (if Issues(c, s, i) && i.last[s.pick] then 1 else 0) <= Far(c, before, s, k)
  {
    ChoiceIsNear(c, before, i0, k, 0);
  }

  lemma {:induction false} TurnsCome(c: Cfg, run: seq<Regs>, ins: seq<In>, k: int, s: nat, t: nat)
    requires IsStretch(c, run, ins) && c.sticky && s < t < |ins| && Waits(c, run, ins, k, s, t)
    ensures 0 <= k < c.n && Far(c, run[t - 1], run[t], k) + RunsIn(c, run, ins, s + 1, t) <= c.n - 1
    ensures Far(c, run[t - 1], run[t], k) >= 0
  {
    assert CycleAt(c, run, ins, t - 1) && CycleAt(c, run, ins, t) && WaitsAt(c, run, ins, k, t - 1);
    if t > s + 1 {
      TurnsCome(c, run, ins, k, s, t - 1);
      assert CycleAt(c, run, ins, t - 2) && WaitsAt(c, run, ins, k, t - 2);
      TurnComes(c, run[t - 2], ins[t - 2], run[t - 1], ins[t - 1], k);
    }
  }

  lemma {:induction false} FirstRun(c: Cfg, run: seq<Regs>, ins: seq<In>, s: nat, t: nat)
    requires s < t <= |ins| && |run| == |ins| + 1
    ensures RunsIn(c, run, ins, s, t) <= RunsIn(c, run, ins, s + 1, t) + 1
  {
    if t > s + 1 { FirstRun(c, run, ins, s, t - 1); }
  }

  /** NOBODY WAITS FOR LONG. With run keeping, in whatever way the others come and go and the memory stalls, while
      one source waits no more than n runs of the others end. */
  lemma NoMoreThanARound(c: Cfg, run: seq<Regs>, ins: seq<In>, k: int, s: nat, t: nat)
    requires IsStretch(c, run, ins) && c.sticky && s < t < |ins| && Waits(c, run, ins, k, s, t)
    ensures RunsIn(c, run, ins, s, t) <= c.n
  {
    TurnsCome(c, run, ins, k, s, t);
    FirstRun(c, run, ins, s, t);
  }

  // --- Without run keeping ------------------------------------------------------------------

  predicate TakesAt(c: Cfg, run: seq<Regs>, ins: seq<In>, u: nat)
    requires u < |ins| && |run| == |ins| + 1
  {
    Shaped(c, run[u], ins[u]) && Issues(c, run[u], ins[u])
  }

  /** Commands taken in the cycles from s to t. */
  function TakenIn(c: Cfg, run: seq<Regs>, ins: seq<In>, s: nat, t: nat): nat
    requires s <= t <= |ins| && |run| == |ins| + 1
  {
    if s == t then 0 else TakenIn(c, run, ins, s, t - 1) + (if TakesAt(c, run, ins, t - 1) then 1 else 0)
  }

  /** ONE CYCLE TO BE SERVED. A source that could be served when the grant stands at it is served in the next cycle
      if and only if ring and memory have room in that very cycle. */
  lemma ServedNext(c: Cfg, s: Regs, i: In, i': In, k: int)
    requires !c.sticky && Shaped(c, s, i) && Shaped(c, Next(c, s, i), i') && 0 <= k < c.n && s.grant == k
    requires Eligible(c, s, i, k) && Eligible(c, Next(c, s, i), i', k)
    ensures CmdAck(c, Next(c, s, i), i', k) <==> Next(c, s, i).count < c.depth && i'.cmdReady
  {
  }

  /** Whenever the grant stands at source k, the next cycle has room. */
  predicate RoomAfter(c: Cfg, run: seq<Regs>, ins: seq<In>, k: int, u: nat)
    requires u < |ins| && |run| == |ins| + 1
  {
    u > 0 && run[u - 1].grant == k ==> run[u].count < c.depth && ins[u].cmdReady
  }

  predicate RoomInTurn(c: Cfg, run: seq<Regs>, ins: seq<In>, k: int, s: nat, t: nat)
    requires t <= |ins| && |run| == |ins| + 1
  {
    forall u: nat | s < u < t :: RoomAfter(c, run, ins, k, u)
  }

  lemma {:induction false} GrantComes(c: Cfg, run: seq<Regs>, ins: seq<In>, k: int, s: nat, t: nat)
    requires IsStretch(c, run, ins) && !c.sticky && s < t <= |ins|
    requires Waits(c, run, ins, k, s, t) && RoomInTurn(c, run, ins, k, s, t)
    ensures 0 <= k < c.n && TakenIn(c, run, ins, s, t - 1) + Dist(c, run[t - 1].grant, k) == Dist(c, run[s].grant, k)
    ensures TakesAt(c, run, ins, t - 1) || TakenIn(c, run, ins, s, t) == TakenIn(c, run, ins, s, t - 1)
  {
    assert CycleAt(c, run, ins, t - 1) && WaitsAt(c, run, ins, k, t - 1);
    if t > s + 1 {
      GrantComes(c, run, ins, k, s, t - 1);
      assert CycleAt(c, run, ins, t - 2) && WaitsAt(c, run, ins, k, t - 2) && RoomAfter(c, run, ins, k, t - 1);
      if run[t - 2].grant == k { ServedNext(c, run[t - 2], ins[t - 2], ins[t - 1], k); }
    }
  }

  /** Without run keeping, a source that finds room in the cycle after each of its turns waits for no more than n
      commands. */
  lemma NoMoreThanNCommands(c: Cfg, run: seq<Regs>, ins: seq<In>, k: int, s: nat, t: nat)
    requires IsStretch(c, run, ins) && !c.sticky && s < t <= |ins|
    requires Waits(c, run, ins, k, s, t) && RoomInTurn(c, run, ins, k, s, t)
    ensures TakenIn(c, run, ins, s, t) <= c.n
  {
    assert CycleAt(c, run, ins, s);
    GrantComes(c, run, ins, k, s, t);
  }

  // --- And a source that starves ------------------------------------------------------------

  /** Both sources always ask; the memory is ready in two cycles of three, and answers one cycle later. */
  function Busy(ready: bool, answer: bool): In { In([true, true], [0, 0], [false, false], ready, answer) }

  /** Source 0 has the turn, and nothing is in flight. */
  predicate FirstsTurn(c: Cfg, s: Regs) {
    && s.outst == [0, 0] && |s.tags| == c.depth && 0 <= s.wptr < c.depth && s.rptr == s.wptr && s.count == 0
    && s.grant == 0 && s.pick == 0 && s.armed && !s.bubble
  }

  /** Three cycles: the memory takes two commands of source 0 while the grant passes by source 1. */
  lemma PassedBy(c: Cfg, s: Regs)
    requires !c.sticky && c.n == 2 && c.per >= 2 && c == DefaultCfg(2, c.per, false) && FirstsTurn(c, s)
    ensures var i, i', i'' := Busy(true, false), Busy(true, true), Busy(false, true);
            Shaped(c, s, i) && Eligible(c, s, i, 1) && CmdAck(c, s, i, 0) &&
            var s' := Next(c, s, i);
            Shaped(c, s', i') && Eligible(c, s', i', 1) && CmdAck(c, s', i', 0) && s'.count == 1 &&
            var s'' := Next(c, s', i');
            Shaped(c, s'', i'') && Eligible(c, s'', i'', 1) && !Issues(c, s'', i'') && s''.count == 1 &&
            FirstsTurn(c, Next(c, s'', i''))
  {
    var i, i', i'' := Busy(true, false), Busy(true, true), Busy(false, true);
    var s' := Next(c, s, i);
    assert Eligible(c, s, i, 0);
    assert s'.outst == [1, 0] && s'.pick == 0 && s'.grant == 1;
    var s'' := Next(c, s', i');
    assert Eligible(c, s', i', 1);
    assert s''.outst == [1, 0] && s''.pick == 1 && s''.grant == 0;
    var s3 := Next(c, s'', i'');
    assert Eligible(c, s'', i'', 0);
    assert s3.outst == [0, 0] && s3.pick == 0;
  }

  lemma WaitsMore(c: Cfg, run: seq<Regs>, ins: seq<In>, s: Regs, i: In, t: nat)
    requires |run| == |ins| + 1 && t < |ins|
    ensures CycleAt(c, run + [s], ins + [i], t) == CycleAt(c, run, ins, t)
    ensures WaitsAt(c, run + [s], ins + [i], 1, t) == WaitsAt(c, run, ins, 1, t)
    ensures TakesAt(c, run + [s], ins + [i], t) == TakesAt(c, run, ins, t)
  {
  }

  /** The memory answers only what is in flight. */
  predicate AnswersAt(run: seq<Regs>, ins: seq<In>, t: nat)
    requires t < |ins| && |run| == |ins| + 1
  {
    ins[t].datValid ==> run[t].count >= 1
  }

  /** Source 1 has waited since reset, and so many commands were taken. */
  predicate Starved(c: Cfg, run: seq<Regs>, ins: seq<In>, taken: nat) {
    && ValidCfg(c) && IsStretch(c, run, ins) && run[0] == Reset(c)
    && (forall t: nat | t < |ins| :: AnswersAt(run, ins, t))
    && Waits(c, run, ins, 1, 0, |ins|) && TakenIn(c, run, ins, 0, |ins|) == taken
  }

  lemma {:induction false} TakenBefore(c: Cfg, run: seq<Regs>, ins: seq<In>, s: Regs, i: In, t: nat)
    requires |run| == |ins| + 1 && t <= |ins|
    ensures TakenIn(c, run + [s], ins + [i], 0, t) == TakenIn(c, run, ins, 0, t)
  {
    if t > 0 {
      TakenBefore(c, run, ins, s, i, t - 1);
      WaitsMore(c, run, ins, s, i, t - 1);
    }
  }

  lemma OneMore(c: Cfg, run: seq<Regs>, ins: seq<In>, taken: nat, i: In)
    requires Starved(c, run, ins, taken)
    requires var s := run[|ins|]; c.n == 2 && Shaped(c, s, i) && Eligible(c, s, i, 1) && !CmdAck(c, s, i, 1) && (i.datValid ==> s.count >= 1)
    ensures var s := run[|ins|];
            Starved(c, run + [Next(c, s, i)], ins + [i], taken + B(Issues(c, s, i)))
  {
    var s := run[|ins|];
    var run', ins' := run + [Next(c, s, i)], ins + [i];
    assert CycleAt(c, run', ins', |ins|) && WaitsAt(c, run', ins', 1, |ins|);
    forall t: nat | t < |ins'|
      ensures CycleAt(c, run', ins', t) && WaitsAt(c, run', ins', 1, t) && AnswersAt(run', ins', t)
    {
      if t < |ins| {
        WaitsMore(c, run, ins, Next(c, s, i), i, t);
        assert CycleAt(c, run, ins, t) && WaitsAt(c, run, ins, 1, t) && AnswersAt(run, ins, t);
      }
    }
    TakenBefore(c, run, ins, Next(c, s, i), i, |ins|);
  }

  /** A SOURCE CAN STARVE. Without run keeping there are runs from reset, as long as one likes, in which source 1
      could be served in every cycle and never is, while the memory takes two commands in three cycles: it is
      never ready in the one cycle that would be source 1's. */
  lemma {:induction false} SourceStarves(c: Cfg, n: nat) returns (run: seq<Regs>, ins: seq<In>)
    requires c == DefaultCfg(2, c.per, false) && c.per >= 2
    ensures |ins| == 3 * n + 1 && |run| == |ins| + 1
    ensures Starved(c, run, ins, 2 * n) && FirstsTurn(c, run[|ins|])
  {
    if n == 0 {
      var s, i := Reset(c), Busy(false, false);
      run, ins := [s], [];
      OneMore(c, run, ins, 0, i);
      assert Eligible(c, s, i, 0) && Next(c, s, i).outst == [0, 0];
      run, ins := run + [Next(c, s, i)], ins + [i];
    } else {
      run, ins := SourceStarves(c, n - 1);
      var s, i, i', i'' := run[|ins|], Busy(true, false), Busy(true, true), Busy(false, true);
      PassedBy(c, s);
      OneMore(c, run, ins, 2 * n - 2, i);
      var s' := Next(c, s, i);
      run, ins := run + [s'], ins + [i];
      OneMore(c, run, ins, 2 * n - 1, i');
      var s'' := Next(c, s', i');
      run, ins := run + [s''], ins + [i'];
      OneMore(c, run, ins, 2 * n, i'');
      run, ins := run + [Next(c, s'', i'')], ins + [i''];
    }
  }

  // --- It does not stand still --------------------------------------------------------------

  /** The choice stays eligible: no request is dropped before it is taken. */
  predicate KeepsAsking(c: Cfg, s: Regs, i: In, s': Regs, i': In) {
    Shaped(c, s, i) && Shaped(c, s', i') && forall j | 0 <= j < c.n && Eligible(c, s, i, j) :: Eligible(c, s', i', j)
  }

  /** PROGRESS: if some source could be served, the ring has room and the memory is ready, then the second of two
      cycles in which no request is dropped takes a command, unless the first has just ended a run. */
  lemma SomethingIssues(c: Cfg, s: Regs, i: In, i': In, k: int)
    requires Shaped(c, s, i) && 0 <= k < c.n && Eligible(c, s, i, k) && KeepsAsking(c, s, i, Next(c, s, i), i')
    requires Next(c, s, i).count < c.depth && i'.cmdReady
    requires !(c.sticky && CmdValid(c, s, i) && i.cmdReady && i.last[s.pick])
    ensures Issues(c, Next(c, s, i), i')
  {
    var j := Dist(c, s.grant, k);
    ChoiceIsEligible(c, s, i, 0, j);
  }

  lemma {:induction false} ChoiceIsEligible(c: Cfg, s: Regs, i: In, at: int, j: int)
    requires Shaped(c, s, i) && 0 <= at <= j < c.n && Eligible(c, s, i, Wrap(s.grant + j, c.n))
    ensures Eligible(c, s, i, Choose(c, s, i, at))
    decreases c.n - at
  {
    if at < j { ChoiceIsEligible(c, s, i, at + 1, j); }
  }

  // --- How long n commands take -------------------------------------------------------------

  /** A command is on the port, and the memory does not take it. */
  predicate Balks(c: Cfg, run: seq<Regs>, ins: seq<In>, u: nat)
    requires u < |ins| && |run| == |ins| + 1
  {
    Shaped(c, run[u], ins[u]) && CmdValid(c, run[u], ins[u]) && !ins[u].cmdReady
  }

  /** For how many cycles before cycle t the memory has let a command wait. */
  function Balked(c: Cfg, run: seq<Regs>, ins: seq<In>, t: nat): nat
    requires t <= |ins| && |run| == |ins| + 1
  {
    if t > 0 && Balks(c, run, ins, t - 1) then Balked(c, run, ins, t - 1) + 1 else 0
  }

  /** The memory never lets commands wait for `ready` cycles in a row. */
  predicate TakesWithin(c: Cfg, run: seq<Regs>, ins: seq<In>, ready: nat)
    requires |run| == |ins| + 1
  {
    forall t: nat | t <= |ins| :: Balked(c, run, ins, t) < ready
  }

  /** In a cycle that takes nothing nobody stops asking, and the ring has room afterwards. */
  predicate AsksOn(c: Cfg, run: seq<Regs>, ins: seq<In>, u: nat)
    requires u + 1 < |ins| && |run| == |ins| + 1
  {
    TakesAt(c, run, ins, u) || (KeepsAsking(c, run[u], ins[u], run[u + 1], ins[u + 1]) && run[u + 1].count < c.depth)
  }

  predicate AskOn(c: Cfg, run: seq<Regs>, ins: seq<In>, s: nat, t: nat)
    requires t <= |ins| && |run| == |ins| + 1
  {
    forall u: nat | s <= u && u + 1 < t :: AsksOn(c, run, ins, u)
  }

  /** For how many cycles before cycle t, back to cycle s, no command has been taken. */
  function Quiet(c: Cfg, run: seq<Regs>, ins: seq<In>, s: nat, t: nat): nat
    requires s <= t <= |ins| && |run| == |ins| + 1
  {
    if s == t || TakesAt(c, run, ins, t - 1) then 0 else Quiet(c, run, ins, s, t - 1) + 1
  }

  /** After a cycle that takes nothing a command is on the port. */
  lemma QuietOffers(c: Cfg, run: seq<Regs>, ins: seq<In>, k: int, u: nat)
    requires IsStretch(c, run, ins) && u + 1 < |ins| && WaitsAt(c, run, ins, k, u) && AsksOn(c, run, ins, u)
    requires !TakesAt(c, run, ins, u)
    ensures Shaped(c, run[u + 1], ins[u + 1]) && CmdValid(c, run[u + 1], ins[u + 1])
  {
    assert CycleAt(c, run, ins, u);
    ChoiceIsEligible(c, run[u], ins[u], 0, Dist(c, run[u].grant, k));
  }

  lemma {:induction false} QuietIsBalked(c: Cfg, run: seq<Regs>, ins: seq<In>, k: int, s: nat, t: nat)
    requires IsStretch(c, run, ins) && s <= t <= |ins| && Waits(c, run, ins, k, s, t) && AskOn(c, run, ins, s, t)
    ensures Quiet(c, run, ins, s, t) <= 1 + Balked(c, run, ins, t)
  {
    if t > s {
      QuietIsBalked(c, run, ins, k, s, t - 1);
      if !TakesAt(c, run, ins, t - 1) && Quiet(c, run, ins, s, t - 1) > 0 {
        assert WaitsAt(c, run, ins, k, t - 2) && AsksOn(c, run, ins, t - 2);
        QuietOffers(c, run, ins, k, t - 2);
      }
    }
  }

  lemma OneMoreTaken(taken: nat, ready: nat)
    ensures (taken + 1) * (ready + 1) == taken * (ready + 1) + ready + 1
  {
  }

  /** While somebody waits, some command is taken in every `ready` + 1 cycles. */
  lemma {:induction false} CommandsTakeTime(c: Cfg, run: seq<Regs>, ins: seq<In>, k: int, s: nat, t: nat, ready: nat)
    requires IsStretch(c, run, ins) && s <= t <= |ins| && Waits(c, run, ins, k, s, t) && AskOn(c, run, ins, s, t)
    requires TakesWithin(c, run, ins, ready)
    ensures t - s <= TakenIn(c, run, ins, s, t) * (ready + 1) + Quiet(c, run, ins, s, t)
    ensures Quiet(c, run, ins, s, t) <= ready
  {
    QuietIsBalked(c, run, ins, k, s, t);
    assert Balked(c, run, ins, t) < ready;
    if t > s {
      CommandsTakeTime(c, run, ins, k, s, t - 1, ready);
      OneMoreTaken(TakenIn(c, run, ins, s, t - 1), ready);
    }
  }
}
