/** How long a fill takes, when no command waits longer than some time and no word stays away longer than another. */
module FillTime {
  import PS = PixelSource
  import LB = LineBuffer
  import Deadline
  import ScanOut
  import opened FetchUnit
  import opened FetchInv
  import opened FetchStep
  import opened FetchPath
  import opened Routing

  // --- Work left ----------------------------------------------------------------------------

  /** Three cycles to take a block up, and for each of its reads the longest time a command waits. */
  function BlockCost(c: PS.Cfg, wait: nat): int { 3 + wait * (4 * c.block) }

  /** The cost of so many columns, block by block. */
  function Blocks(columns: int, block: int, cost: int): int
    requires 1 <= block
    decreases columns
  {
    if columns <= 0 then 0 else cost + Blocks(columns - block, block, cost)
  }

  /** Commands of the block in hand that have not been taken. */
  function CommandsLeft(c: PS.Cfg, t: PS.Sender): int { 2 * c.block * (2 - t.phase) - t.j }

  function SenderWork(c: PS.Cfg, t: PS.Sender, wait: nat): int {
    match t.fsm
    case Idle => 0
    case Mul => 2 + wait * (4 * c.block)
    case Adr0 => 1 + wait * (4 * c.block)
    case Issue => wait * CommandsLeft(c, t)
  }

  /** The cycles a fill still needs to have all its commands taken, at most. */
  function WorkOf(c: PS.Cfg, t: PS.Sender, q: LB.Regs, wait: nat): int
    requires 1 <= c.block
  {
    SenderWork(c, t, wait) + (if q.reqActive then Blocks(c.columns - q.reqCol, c.block, BlockCost(c, wait)) else 0)
  }

  lemma OneLess(wait: nat, n: int)
    ensures wait * (n - 1) == wait * n - wait
  {
  }

  lemma {:induction false} BlocksGrow(a: int, b: int, block: int, cost: int)
    requires 1 <= block && 0 <= cost && a <= b
    ensures 0 <= Blocks(a, block, cost) <= Blocks(b, block, cost)
    decreases b
  {
    if b > 0 { BlocksGrow(a - block, b - block, block, cost); }
  }

  lemma {:induction false} BlocksAre(n: nat, block: int, cost: int)
    requires 1 <= block
    ensures Blocks(n * block, block, cost) == n * cost
  {
    if n > 0 {
      BlocksAre(n - 1, block, cost);
      assert n * block - block == (n - 1) * block && n * block > 0;
      assert n * cost == (n - 1) * cost + cost;
    }
  }

  lemma IssueStep(c: PS.Cfg, t: PS.Sender, i: PS.In, wait: nat)
    requires PS.ValidCfg(c) && |t.offs| == 4 && t.fsm == PS.Issue && 0 <= t.j < 2 * c.block && 0 <= t.phase <= 1
    ensures SenderWork(c, PS.SenderNext(c, t, i), wait) == SenderWork(c, t, wait) - (if i.cmdAck then wait else 0)
  {
    var n, left := PS.SenderNext(c, t, i), CommandsLeft(c, t);
    OneLess(wait, left);
    assert i.cmdAck && n.fsm == PS.Idle ==> left == 1;
    assert i.cmdAck && n.fsm == PS.Issue ==> CommandsLeft(c, n) == left - 1;
  }

  lemma IssueBegins(c: PS.Cfg, t: PS.Sender, wait: nat)
    requires t.j == 0 && t.phase == 0
    ensures wait * CommandsLeft(c, t) == wait * (4 * c.block)
  {
    assert CommandsLeft(c, t) == 4 * c.block;
  }

  /** What one cycle does to the work of sender `t` and request registers `q`. */
  predicate Nearer(c: PS.Cfg, t: PS.Sender, work: int, t': PS.Sender, work': int, wait: nat, ack: bool) {
    && (t.fsm == PS.Issue ==> work' == work - (if ack then wait else 0))
    && (t.fsm != PS.Issue && t'.fsm == PS.Idle ==> work == work' == 0)
    && (t.fsm != PS.Issue && t'.fsm != PS.Idle ==> work' == work - 1)
  }

  lemma BlockTaken(c: PS.Cfg, q: LB.Regs, wait: nat)
    requires PS.ValidCfg(c) && q.reqActive && 0 <= q.reqCol < c.columns && PS.Whole(q.reqCol, c.block)
    ensures var q', cost := LB.RequestNext(BufferCfg(c), q, true), BlockCost(c, wait);
            Blocks(c.columns - q.reqCol, c.block, cost)
            == cost + (if q'.reqActive then Blocks(c.columns - q'.reqCol, c.block, cost) else 0)
  {
    RequestWalk(c, q, true);
  }

  /** The request registers and the sender in mid-fill. */
  predicate Sending(c: PS.Cfg, t: PS.Sender, q: LB.Regs) {
    && PS.ValidCfg(c) && |t.offs| == 4 && 0 <= t.j < 2 * c.block && 0 <= t.phase <= 1
    && (t.fsm == PS.Mul || t.fsm == PS.Adr0 ==> t.j == 0 && t.phase == 0)
    && (q.reqActive ==> 0 <= q.reqCol < c.columns && PS.Whole(q.reqCol, c.block))
  }

  lemma SenderCycle(c: PS.Cfg, t: PS.Sender, q: LB.Regs, i: PS.In, wait: nat)
    requires Sending(c, t, q) && i.req == q.reqActive
    ensures var t', q' := PS.SenderNext(c, t, i), LB.RequestNext(BufferCfg(c), q, t.fsm == PS.Idle && i.req);
            Nearer(c, t, WorkOf(c, t, q, wait), t', WorkOf(c, t', q', wait), wait, i.cmdAck)
  {
    var t' := PS.SenderNext(c, t, i);
    match t.fsm
    case Idle => if q.reqActive { BlockTaken(c, q, wait); }
    case Mul =>
    case Adr0 => IssueBegins(c, t', wait);
    case Issue => IssueStep(c, t, i, wait);
  }

  /** A cycle in which the fill goes on brings it a cycle nearer, or `wait` cycles if it takes a command, unless a
      command is waiting or all have been taken. */
  lemma WorkStep(c: PS.Cfg, u: Unit, i: In, wait: nat)
    requires Sending(c, u.src.tx, u.lb.q) && Shaped(c, u, i) && u.lb.q.filling && Next(c, u, i).lb.q.filling
    ensures var u' := Next(c, u, i);
            Nearer(c, u.src.tx, WorkOf(c, u.src.tx, u.lb.q, wait), u'.src.tx, WorkOf(c, u'.src.tx, u'.lb.q, wait), wait, i.cmdAck)
  {
    SenderCycle(c, u.src.tx, u.lb.q, SourceIn(u, i), wait);
  }

  lemma SendingInv(c: PS.Cfg, u: Unit, flight: seq<Read>, now: int)
    requires UnitInv(c, u, flight, now) && u.lb.q.filling
    ensures Sending(c, u.src.tx, u.lb.q)
  {
    assert SenderOk(c, u.src.tx, u.from, JobOf(u), Sent(u.lb.q, c.columns));
  }

  // --- The most a fill can need -------------------------------------------------------------

  /** A block in hand has been requested. */
  lemma BusyIsAhead(c: PS.Cfg, u: Unit, flight: seq<Read>, now: int)
    requires UnitInv(c, u, flight, now) && u.lb.q.filling && u.src.tx.fsm != PS.Idle
    ensures Sent(u.lb.q, c.columns) >= c.block
  {
    var t, sent := u.src.tx, Sent(u.lb.q, c.columns);
    SentIsWhole(c, u.lb.q);
    assert Todo(c, t, sent) != [] && Expected(c, u.src.rx, RecvCol(u), sent) != [];
    assert RecvCol(u) < sent;
  }

  lemma SenderWorkBound(c: PS.Cfg, t: PS.Sender, q: LB.Regs, wait: nat)
    requires Sending(c, t, q)
    ensures 0 <= SenderWork(c, t, wait) <= (if t.fsm == PS.Idle then 0 else BlockCost(c, wait))
  {
    if t.fsm == PS.Issue {
      assert 0 <= CommandsLeft(c, t) <= 4 * c.block;
      AtMost(wait, CommandsLeft(c, t), 4 * c.block);
    } else {
      AtMost(wait, 0, 4 * c.block);
    }
  }

  lemma AtMost(wait: nat, n: int, m: int)
    requires 0 <= n <= m
    ensures 0 <= wait * n <= wait * m
  {
  }

  lemma WorkBound(c: PS.Cfg, t: PS.Sender, q: LB.Regs, wait: nat)
    requires Sending(c, t, q) && (t.fsm != PS.Idle ==> Sent(q, c.columns) >= c.block)
    ensures 0 <= WorkOf(c, t, q, wait) <= Blocks(c.columns, c.block, BlockCost(c, wait))
  {
    var cost, left := BlockCost(c, wait), if q.reqActive then c.columns - q.reqCol else 0;
    AtMost(wait, 0, 4 * c.block);
    SenderWorkBound(c, t, q, wait);
    BlocksGrow(left, c.columns, c.block, cost);
    if t.fsm != PS.Idle { BlocksGrow(left, c.columns - c.block, c.block, cost); }
  }

  /** Every command taken and every word back: the last column is being published. */
  lemma LastColumnComes(c: PS.Cfg, u: Unit, flight: seq<Read>, now: int)
    requires UnitInv(c, u, flight, now) && u.lb.q.filling
    requires u.src.tx.fsm == PS.Idle && !u.lb.q.reqActive && flight == []
    ensures Ends(c, u)
  {
    var rx := u.src.rx;
    assert Expected(c, rx, RecvCol(u), c.columns) == [];
    assert RecvCol(u) == c.columns;
  }

  // --- In a run of the whole path -----------------------------------------------------------

  /** Output k asks in cycle t, and its command is not taken. */
  predicate WaitsAt(b: Build, run: seq<Path>, envs: seq<Env>, k: nat, t: nat)
    requires t < |envs| && |run| == |envs| + 1
  {
    && k < |run[t].units| && PS.MemReq(run[t].units[k].src)
    && Wired(b, run[t], envs[t]) && k < b.arb.n && !UnitIn(b, run[t], envs[t], k).cmdAck
  }

  /** For how many cycles before cycle t output k's command has been waiting. */
  function Waited(b: Build, run: seq<Path>, envs: seq<Env>, k: nat, t: nat): nat
    requires t <= |envs| && |run| == |envs| + 1
  {
    if t > 0 && WaitsAt(b, run, envs, k, t - 1) then Waited(b, run, envs, k, t - 1) + 1 else 0
  }

  /** No command of output k waits for `wait` cycles. */
  predicate Served(b: Build, run: seq<Path>, envs: seq<Env>, k: nat, wait: nat)
    requires |run| == |envs| + 1
  {
    forall t: nat | t <= |envs| :: Waited(b, run, envs, k, t) < wait
  }

  predicate NotStale(run: seq<Path>, k: nat, latency: nat, t: nat)
    requires t < |run|
  {
    forall j | 0 <= j < |Of(run[t].y.flight, k)| :: t <= Of(run[t].y.flight, k)[j].at + latency
  }

  /** A word of output k comes back within `latency` cycles of its command. */
  predicate Returned(run: seq<Path>, k: nat, latency: nat) {
    forall t: nat | t < |run| :: NotStale(run, k, latency, t)
  }

  /** Output k fills in every cycle from s to t. */
  predicate FillsOn(run: seq<Path>, k: nat, s: nat, t: nat)
    requires t < |run|
  {
    forall u: nat | s <= u <= t :: k < |run[u].units| && run[u].units[k].lb.q.filling
  }

  function WorkAt(b: Build, run: seq<Path>, k: nat, wait: nat, t: nat): int
    requires t < |run| && k < |run[t].units| && k < |b.outputs| && 1 <= b.outputs[k].block
  {
    WorkOf(b.outputs[k], run[t].units[k].src.tx, run[t].units[k].lb.q, wait)
  }

  lemma UnitAt(b: Build, run: seq<Path>, envs: seq<Env>, k: nat, t: nat)
    requires IsPathRun(b, run, envs) && k < b.arb.n && t < |run|
    ensures k < |run[t].units| == |b.outputs| && UnitInv(b.outputs[k], run[t].units[k], Of(run[t].y.flight, k), t)
    ensures PS.ValidCfg(b.outputs[k])
  {
    PathRunInv(b, run, envs, t);
    assert UnitOk(b, run[t], k);
  }

  /** One cycle of output k in a run. */
  lemma UnitCycle(b: Build, run: seq<Path>, envs: seq<Env>, k: nat, t: nat)
    requires IsPathRun(b, run, envs) && k < b.arb.n && t < |envs|
    ensures k < |run[t].units| && k < |run[t + 1].units| && k < |b.outputs| && Wired(b, run[t], envs[t])
    ensures var c, u, i := b.outputs[k], run[t].units[k], UnitIn(b, run[t], envs[t], k);
            && Shaped(c, u, i) && run[t + 1].units[k] == Next(c, u, i)
            && Contract(c, u, i, Of(run[t].y.flight, k)) && i.now == t
            && Of(run[t + 1].y.flight, k) == FlightNext(c, u, i, Of(run[t].y.flight, k), k)
  {
    CycleOf(b, run, envs, t);
    ContractKept(b, run[t], envs[t], k);
  }

  /** Mid-fill, and the most the fill can still need. */
  lemma FillAt(b: Build, run: seq<Path>, envs: seq<Env>, k: nat, wait: nat, t: nat)
    requires IsPathRun(b, run, envs) && k < b.arb.n && t < |run| && FillsOn(run, k, t, t)
    ensures k < |run[t].units| && k < |b.outputs|
    ensures var c := b.outputs[k];
            && Sending(c, run[t].units[k].src.tx, run[t].units[k].lb.q)
            && 0 <= WorkAt(b, run, k, wait, t) <= Blocks(c.columns, c.block, BlockCost(c, wait))
  {
    UnitAt(b, run, envs, k, t);
    var c, u, flight := b.outputs[k], run[t].units[k], Of(run[t].y.flight, k);
    SendingInv(c, u, flight, t);
    if u.src.tx.fsm != PS.Idle { BusyIsAhead(c, u, flight, t); }
    WorkBound(c, u.src.tx, u.lb.q, wait);
  }

  predicate AllTaken(run: seq<Path>, k: nat, t: nat)
    requires t < |run|
  {
    k < |run[t].units| && run[t].units[k].src.tx.fsm == PS.Idle && !run[t].units[k].lb.q.reqActive
  }

  lemma TakenStays(b: Build, run: seq<Path>, envs: seq<Env>, k: nat, t: nat)
    requires IsPathRun(b, run, envs) && k < b.arb.n && t < |envs| && FillsOn(run, k, t, t + 1) && AllTaken(run, k, t)
    ensures AllTaken(run, k, t + 1)
  {
    UnitCycle(b, run, envs, k, t);
  }

  /** A command that waits is still there in the next cycle. */
  lemma StillAsks(b: Build, run: seq<Path>, envs: seq<Env>, k: nat, t: nat)
    requires IsPathRun(b, run, envs) && k < b.arb.n && t < |run| && Waited(b, run, envs, k, t) > 0
    ensures k < |run[t].units| && PS.MemReq(run[t].units[k].src)
  {
    UnitCycle(b, run, envs, k, t - 1);
  }

  /** From cycle s on, mid-fill in cycle t: either all commands are taken, or the work left has shrunk by a unit a
      cycle, the cycles of the command that is waiting excepted. */
  predicate Nears(b: Build, run: seq<Path>, envs: seq<Env>, k: nat, wait: nat, s: nat, t: nat)
    requires s <= t <= |envs| && |run| == |envs| + 1
  {
    && k < |run[s].units| && k < |run[t].units| && k < |b.outputs| && 1 <= b.outputs[k].block
    && (AllTaken(run, k, t)
        || t - s + WorkAt(b, run, k, wait, t) <= WorkAt(b, run, k, wait, s) + Waited(b, run, envs, k, t))
  }

  lemma NearsStep(b: Build, run: seq<Path>, envs: seq<Env>, k: nat, wait: nat, s: nat, t: nat)
    requires IsPathRun(b, run, envs) && k < b.arb.n && s <= t < |envs| && FillsOn(run, k, t, t + 1)
    requires Waited(b, run, envs, k, t) < wait && Nears(b, run, envs, k, wait, s, t)
    ensures Nears(b, run, envs, k, wait, s, t + 1)
  {
    UnitCycle(b, run, envs, k, t);
    FillAt(b, run, envs, k, wait, t);
    if AllTaken(run, k, t) {
      TakenStays(b, run, envs, k, t);
    } else {
      WorkStep(b.outputs[k], run[t].units[k], UnitIn(b, run[t], envs[t], k), wait);
      if Waited(b, run, envs, k, t) > 0 { StillAsks(b, run, envs, k, t); }
    }
  }

  lemma {:induction false} FillNears(b: Build, run: seq<Path>, envs: seq<Env>, k: nat, wait: nat, s: nat, t: nat)
    requires IsPathRun(b, run, envs) && k < b.arb.n && s <= t < |run| && FillsOn(run, k, s, t)
    requires Served(b, run, envs, k, wait)
    ensures Nears(b, run, envs, k, wait, s, t)
  {
    if t == s {
      FillAt(b, run, envs, k, wait, s);
    } else {
      FillNears(b, run, envs, k, wait, s, t - 1);
      NearsStep(b, run, envs, k, wait, s, t - 1);
    }
  }

  /** In so many cycles all commands of a fill are taken. */
  lemma CommandsTaken(b: Build, run: seq<Path>, envs: seq<Env>, k: nat, wait: nat, s: nat, t: nat)
    requires IsPathRun(b, run, envs) && k < b.arb.n && s <= t < |run| && FillsOn(run, k, s, t)
    requires Served(b, run, envs, k, wait) && k < |b.outputs| && 1 <= b.outputs[k].block
    requires t - s >= Blocks(b.outputs[k].columns, b.outputs[k].block, BlockCost(b.outputs[k], wait)) + wait
    ensures AllTaken(run, k, t)
  {
    FillNears(b, run, envs, k, wait, s, t);
    FillAt(b, run, envs, k, wait, s);
    FillAt(b, run, envs, k, wait, t);
    assert Waited(b, run, envs, k, t) < wait;
  }

  /** Reads of output k in flight in cycle t were all taken before cycle u. */
  predicate TakenBefore(run: seq<Path>, k: nat, u: nat, t: nat)
    requires t < |run|
  {
    forall j | 0 <= j < |Of(run[t].y.flight, k)| :: Of(run[t].y.flight, k)[j].at < u
  }

  /** In a cycle that takes no command of the output, its reads only leave. */
  lemma OnlyLeave(b: Build, run: seq<Path>, envs: seq<Env>, k: nat, u: nat, t: nat)
    requires IsPathRun(b, run, envs) && k < b.arb.n && t < |envs| && TakenBefore(run, k, u, t)
    requires AllTaken(run, k, t) || WaitsAt(b, run, envs, k, t)
    ensures TakenBefore(run, k, u, t + 1)
  {
    UnitCycle(b, run, envs, k, t);
    var before, after, i := Of(run[t].y.flight, k), Of(run[t + 1].y.flight, k), UnitIn(b, run[t], envs[t], k);
    assert after == Popped(before, i.ack);
  }

  lemma TakenAlready(b: Build, run: seq<Path>, envs: seq<Env>, k: nat, t: nat)
    requires IsPathRun(b, run, envs) && k < b.arb.n && t < |run|
    ensures TakenBefore(run, k, t, t)
  {
    RunTrue(b, run, envs, t, k);
    PathRunInv(b, run, envs, t);
    assert TrueAt(b, envs, run[t], k);
    assert AllTrue(envs, k, Of(run[t].y.flight, k), t);
  }

  lemma {:induction false} NoneIsNew(b: Build, run: seq<Path>, envs: seq<Env>, k: nat, u: nat, t: nat)
    requires IsPathRun(b, run, envs) && k < b.arb.n && u <= t < |run| && FillsOn(run, k, u, t) && AllTaken(run, k, u)
    ensures AllTaken(run, k, t) && TakenBefore(run, k, u, t)
  {
    if t == u {
      TakenAlready(b, run, envs, k, t);
    } else {
      NoneIsNew(b, run, envs, k, u, t - 1);
      TakenStays(b, run, envs, k, t - 1);
      OnlyLeave(b, run, envs, k, u, t - 1);
    }
  }

  lemma NoneIsOld(run: seq<Path>, k: nat, latency: nat, u: nat, t: nat)
    requires t < |run| && TakenBefore(run, k, u, t) && NotStale(run, k, latency, t)
    ensures Of(run[t].y.flight, k) == [] || t < u + latency
  {
    var flight := Of(run[t].y.flight, k);
    if flight != [] { assert flight[0].at < u; }
  }

  /** All commands taken, and the last of them so long ago that its word is back: the fill ends. */
  lemma FillIsOver(b: Build, run: seq<Path>, envs: seq<Env>, k: nat, latency: nat, t: nat)
    requires IsPathRun(b, run, envs) && k < b.arb.n && t < |envs| && latency <= t && FillsOn(run, k, t, t)
    requires AllTaken(run, k, t) && TakenBefore(run, k, t - latency, t) && NotStale(run, k, latency, t)
    ensures k < |run[t + 1].units| && !run[t + 1].units[k].lb.q.filling
  {
    NoneIsOld(run, k, latency, t - latency, t);
    UnitAt(b, run, envs, k, t);
    LastColumnComes(b.outputs[k], run[t].units[k], [], t);
    UnitCycle(b, run, envs, k, t);
  }

  /** A fill that goes on from cycle t until its last word must be back ends with the next cycle. */
  lemma LongFillEnds(b: Build, run: seq<Path>, envs: seq<Env>, k: nat, wait: nat, latency: nat, t: nat, taken: nat)
    requires IsPathRun(b, run, envs) && k < b.arb.n && k < |b.outputs| && 1 <= b.outputs[k].block
    requires Served(b, run, envs, k, wait) && Returned(run, k, latency) && t <= taken && taken + latency + 1 < |run|
    requires taken - t == Blocks(b.outputs[k].columns, b.outputs[k].block, BlockCost(b.outputs[k], wait)) + wait
    requires FillsOn(run, k, t, taken + latency)
    ensures k < |run[taken + latency + 1].units| && !run[taken + latency + 1].units[k].lb.q.filling
  {
    CommandsTaken(b, run, envs, k, wait, t, taken);
    NoneIsNew(b, run, envs, k, taken, taken + latency);
    assert NotStale(run, k, latency, taken + latency);
    FillIsOver(b, run, envs, k, latency, taken + latency);
  }

  lemma FillPauses(b: Build, run: seq<Path>, envs: seq<Env>, k: nat, wait: nat, latency: nat, sending: nat, fill: nat, t: nat)
    requires IsPathRun(b, run, envs) && k < b.arb.n && k < |b.outputs| && 1 <= b.outputs[k].block
    requires Served(b, run, envs, k, wait) && Returned(run, k, latency) && t + fill < |run|
    requires sending == Blocks(b.outputs[k].columns, b.outputs[k].block, BlockCost(b.outputs[k], wait)) + wait
    requires fill == sending + latency + 1
    ensures Deadline.Pauses(ScanOut.Buffers(run, k), t, fill)
  {
    if FillsOn(run, k, t, t + sending + latency) {
      LongFillEnds(b, run, envs, k, wait, latency, t, t + sending);
      assert !ScanOut.Buffers(run, k)[t + fill].q.filling;
    } else {
      var u: nat :| t <= u <= t + sending + latency && !(k < |run[u].units| && run[u].units[k].lb.q.filling);
      UnitAt(b, run, envs, k, u);
      assert !ScanOut.Buffers(run, k)[u].q.filling;
    }
  }

  /** A FILL TAKES ITS TIME AND NO MORE. If no command of the output waits for `wait` cycles and every word is back
      within `latency`, then n blocks are fetched in n * (3 + 4 * block * wait) + wait + latency + 1 cycles. */
  lemma FillsAreFast(b: Build, run: seq<Path>, envs: seq<Env>, k: nat, wait: nat, latency: nat, n: nat, fill: nat)
    requires IsPathRun(b, run, envs) && k < b.arb.n && k < |b.outputs|
    requires Served(b, run, envs, k, wait) && Returned(run, k, latency)
    requires var c := b.outputs[k]; c.columns == n * c.block && fill == n * (3 + wait * (4 * c.block)) + wait + latency + 1
    ensures Deadline.FastFills(ScanOut.Buffers(run, k), fill)
  {
    var c, buffers := b.outputs[k], ScanOut.Buffers(run, k);
    BlocksAre(n, c.block, BlockCost(c, wait));
    forall t: nat | t + fill < |buffers|
      ensures Deadline.Pauses(buffers, t, fill)
    {
      FillPauses(b, run, envs, k, wait, latency, n * (3 + wait * (4 * c.block)) + wait, fill, t);
    }
  }
}
