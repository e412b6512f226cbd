/** The whole scan-out fetch path: every output's line buffer and source, behind one arbiter and an
    in-order memory of arbitrary latency, whose contents and whose displayed half may change in any cycle. */
module FetchPath {
  import Arbiter
  import PS = PixelSource
  import LB = LineBuffer
  import FetchUnit
  import FetchInv
  import FetchStep
  import opened Routing

  /** The arbiter, and one configuration per output. */
  datatype Build = Build(arb: Arbiter.Cfg, outputs: seq<PS.Cfg>)

  /** The hardware, and the number of the cycle. */
  datatype Path = Path(y: Sys, units: seq<FetchUnit.Unit>, now: int)

  /** Where a serialiser is: its row counter, and the row and column it reads. */
  datatype Spot = Spot(base: int, row: int, col: int)

  /** One cycle of the environment: every serialiser's position, the memory port, what the memory holds, and
      the framebuffer base of every output. */
  datatype Env = Env(spots: seq<Spot>, cmdReady: bool, datValid: bool, mem: int -> int, bases: seq<int>)

  predicate ValidBuild(b: Build) {
    && Arbiter.ValidCfg(b.arb) && |b.outputs| == b.arb.n
    && forall k | 0 <= k < b.arb.n :: FetchUnit.ValidCfg(b.outputs[k])
  }

  predicate OnPanel(c: PS.Cfg, s: Spot) { 0 <= s.base < c.rows && 0 <= s.row < c.rows && 0 <= s.col < c.columns }

  /** Serialisers stay on their panels; the memory returns data only for a command it has taken. */
  predicate Possible(b: Build, p: Path, e: Env) {
    && ValidBuild(b) && |e.spots| == |e.bases| == b.arb.n
    && (forall k | 0 <= k < b.arb.n :: OnPanel(b.outputs[k], e.spots[k]))
    && (e.datValid ==> p.y.flight != [])
  }

  function Requests(b: Build, p: Path, e: Env): Arbiter.In
    requires Possible(b, p, e) && |p.units| == b.arb.n
  {
    var n := b.arb.n;
    Arbiter.In(seq(n, k requires 0 <= k < n => PS.MemReq(p.units[k].src)),
               seq(n, k requires 0 <= k < n => p.units[k].src.tx.adr),
               seq(n, k requires 0 <= k < n => PS.MemLast(b.outputs[k], p.units[k].src)),
               e.cmdReady, e.datValid)
  }

  predicate Wired(b: Build, p: Path, e: Env) {
    Possible(b, p, e) && |p.units| == b.arb.n && Arbiter.Shaped(b.arb, p.y.arb, Requests(b, p, e))
  }

  /** The memory's word, this cycle, at the address on the command bus. */
  function TickOf(b: Build, p: Path, e: Env): Tick
    requires Wired(b, p, e)
  {
    Tick(Requests(b, p, e), e.mem(Arbiter.CmdAdr(b.arb, p.y.arb, Requests(b, p, e))), p.now,
         p.units[p.y.arb.pick].from.cur)
  }

  const NOTHING: Read := Read(0, 0, 0, 0, FetchUnit.NEVER)

  /** What output k sees: its acceptance, its acknowledgement, and the data bus all outputs share. */
  function UnitIn(b: Build, p: Path, e: Env, k: int): FetchUnit.In
    requires Wired(b, p, e) && 0 <= k < b.arb.n
  {
    var i, s := Requests(b, p, e), e.spots[k];
    FetchUnit.In(s.base, s.row, s.col, Arbiter.CmdAck(b.arb, p.y.arb, i, k), Arbiter.Ack(b.arb, p.y.arb, i, k),
                 if e.datValid then p.y.flight[0] else NOTHING, e.bases[k], e.mem(p.units[k].src.tx.adr), p.now)
  }

  predicate Fits(b: Build, p: Path, e: Env) {
    && Wired(b, p, e) && Legal(b.arb, p.y, TickOf(b, p, e))
    && forall k | 0 <= k < b.arb.n :: FetchUnit.Shaped(b.outputs[k], p.units[k], UnitIn(b, p, e, k))
  }

  function PathNext(b: Build, p: Path, e: Env): Path
    requires Fits(b, p, e)
  {
    Path(SysNext(b.arb, p.y, TickOf(b, p, e)),
         seq(b.arb.n, k requires 0 <= k < b.arb.n => FetchUnit.Next(b.outputs[k], p.units[k], UnitIn(b, p, e, k))),
         p.now + 1)
  }

  function PathReset(b: Build): Path
    requires ValidBuild(b)
  {
    Path(SysReset(b.arb), seq(b.arb.n, k requires 0 <= k < b.arb.n => FetchUnit.Reset(b.outputs[k])), 0)
  }

  predicate UnitOk(b: Build, p: Path, k: int) {
    match p
    case Path(y, units, now) =>
      && 0 <= k < |units| && 0 <= k < |b.outputs|
      && FetchInv.UnitInv(b.outputs[k], units[k], Of(y.flight, k), now)
  }

  predicate PathInv(b: Build, p: Path) {
    && ValidBuild(b) && Inv(b.arb, p.y) && |p.units| == b.arb.n
    && forall k | 0 <= k < b.arb.n :: UnitOk(b, p, k)
  }

  lemma ResetInv(b: Build)
    requires ValidBuild(b)
    ensures PathInv(b, PathReset(b))
  {
    var p := PathReset(b);
    forall k | 0 <= k < b.arb.n
      ensures UnitOk(b, p, k)
    {
      assert Of(p.y.flight, k) == [];
    }
  }

  lemma WiredInv(b: Build, p: Path, e: Env)
    requires PathInv(b, p) && Possible(b, p, e)
    ensures Wired(b, p, e) && Legal(b.arb, p.y, TickOf(b, p, e))
  {
    if e.datValid { assert TagAt(p.y.arb.tags, p.y.arb.rptr, p.y.flight, 0); }
  }

  /** The arbiter keeps each unit's contract, and hands it its own share of the reads in flight. */
  lemma ContractKept(b: Build, p: Path, e: Env, k: int)
    requires PathInv(b, p) && Possible(b, p, e) && 0 <= k < b.arb.n
    ensures Wired(b, p, e) && Legal(b.arb, p.y, TickOf(b, p, e)) && UnitOk(b, p, k)
    ensures FetchInv.Contract(b.outputs[k], p.units[k], UnitIn(b, p, e, k), Of(p.y.flight, k))
    ensures Of(SysNext(b.arb, p.y, TickOf(b, p, e)).flight, k)
         == FetchInv.FlightNext(b.outputs[k], p.units[k], UnitIn(b, p, e, k), Of(p.y.flight, k), k)
  {
    WiredInv(b, p, e);
    OfStep(b.arb, p.y, TickOf(b, p, e), k);
    assert UnitOk(b, p, k);
    assert OnPanel(b.outputs[k], e.spots[k]);
  }

  lemma EveryUnitFits(b: Build, p: Path, e: Env)
    requires PathInv(b, p) && Possible(b, p, e)
    ensures Fits(b, p, e)
  {
    WiredInv(b, p, e);
    forall k | 0 <= k < b.arb.n
      ensures FetchUnit.Shaped(b.outputs[k], p.units[k], UnitIn(b, p, e, k))
    {
      ContractKept(b, p, e, k);
      FetchStep.ShapedInv(b.outputs[k], p.units[k], UnitIn(b, p, e, k), Of(p.y.flight, k), p.now);
    }
  }

  lemma UnitStays(b: Build, p: Path, e: Env, k: int)
    requires PathInv(b, p) && Possible(b, p, e) && Fits(b, p, e) && 0 <= k < b.arb.n
    ensures UnitOk(b, PathNext(b, p, e), k)
  {
    ContractKept(b, p, e, k);
    FetchStep.UnitStep(b.outputs[k], p.units[k], UnitIn(b, p, e, k), Of(p.y.flight, k), k);
  }

  /** ONE CYCLE of the whole path is always possible and keeps its invariant. */
  lemma PathStep(b: Build, p: Path, e: Env)
    requires PathInv(b, p) && Possible(b, p, e)
    ensures Fits(b, p, e) && PathInv(b, PathNext(b, p, e))
  {
    EveryUnitFits(b, p, e);
    forall k | 0 <= k < b.arb.n
      ensures UnitOk(b, PathNext(b, p, e), k)
    {
      UnitStays(b, p, e, k);
    }
    StepInv(b.arb, p.y, TickOf(b, p, e));
  }

  // --- Runs ---------------------------------------------------------------------------------

  predicate Steps(b: Build, p: Path, e: Env, p': Path) {
    Possible(b, p, e) && (Fits(b, p, e) ==> p' == PathNext(b, p, e))
  }

  predicate StepAt(b: Build, run: seq<Path>, envs: seq<Env>, t: int)
    requires 0 <= t < |envs| && |run| == |envs| + 1
  {
    Steps(b, run[t], envs[t], run[t + 1])
  }

  ghost predicate IsPathRun(b: Build, run: seq<Path>, envs: seq<Env>) {
    && ValidBuild(b) && |run| == |envs| + 1 && run[0] == PathReset(b)
    && forall t | 0 <= t < |envs| :: StepAt(b, run, envs, t)
  }

  lemma {:induction false} PathRunInv(b: Build, run: seq<Path>, envs: seq<Env>, t: int)
    requires IsPathRun(b, run, envs) && 0 <= t < |run|
    ensures PathInv(b, run[t]) && run[t].now == t
  {
    if t == 0 {
      ResetInv(b);
    } else {
      PathRunInv(b, run, envs, t - 1);
      assert StepAt(b, run, envs, t - 1);
      PathStep(b, run[t - 1], envs[t - 1]);
    }
  }

  lemma CycleOf(b: Build, run: seq<Path>, envs: seq<Env>, t: int)
    requires IsPathRun(b, run, envs) && 0 <= t < |envs|
    ensures PathInv(b, run[t]) && Possible(b, run[t], envs[t]) && run[t].now == t
    ensures Fits(b, run[t], envs[t]) && run[t + 1] == PathNext(b, run[t], envs[t])
  {
    PathRunInv(b, run, envs, t);
    assert StepAt(b, run, envs, t);
    PathStep(b, run[t], envs[t]);
  }

  // --- What the reads were ------------------------------------------------------------------

  /** The stamp's base was output k's base in the stamp's cycle. */
  predicate StampTrue(envs: seq<Env>, k: nat, s: Stamp) {
    s.at >= 0 ==> s.at < |envs| && k < |envs[s.at].bases| && s.value == envs[s.at].bases[k]
  }

  /** The word is the one the memory held, at the read's address, in the cycle it took the command. */
  predicate ReadTrue(envs: seq<Env>, k: nat, r: Read) {
    0 <= r.at < |envs| && r.word == envs[r.at].mem(r.adr) && StampTrue(envs, k, r.from)
  }

  predicate AllTrue(envs: seq<Env>, k: nat, rs: seq<Read>, now: int) {
    forall j | 0 <= j < |rs| :: ReadTrue(envs, k, rs[j]) && rs[j].at < now
  }

  predicate FillTrue(envs: seq<Env>, k: nat, f: FetchUnit.Fill, until: int) {
    0 <= f.since && forall e | e in f.words :: ReadTrue(envs, k, f.words[e]) && f.words[e].at < until
  }

  predicate UnitTrue(envs: seq<Env>, k: nat, u: FetchUnit.Unit, flight: seq<Read>, now: int) {
    && StampTrue(envs, k, u.from.cur) && StampTrue(envs, k, u.from.first) && AllTrue(envs, k, flight, now)
    && FillTrue(envs, k, u.fill, now) && |u.done| == 3
    && forall s | 0 <= s < 3 :: FillTrue(envs, k, u.done[s], u.done[s].until) && u.done[s].until <= now
  }

  /** The inputs of the cycle are the environment's. */
  predicate InTrue(envs: seq<Env>, k: nat, u: FetchUnit.Unit, i: FetchUnit.In) {
    && 0 <= i.now < |envs| && k < |envs[i.now].bases|
    && i.base == envs[i.now].bases[k] && i.word == envs[i.now].mem(u.src.tx.adr)
  }

  lemma TrueStep(c: PS.Cfg, envs: seq<Env>, k: nat, u: FetchUnit.Unit, i: FetchUnit.In, flight: seq<Read>)
    requires FetchUnit.Shaped(c, u, i) && FetchInv.Contract(c, u, i, flight)
    requires UnitTrue(envs, k, u, flight, i.now) && InTrue(envs, k, u, i)
    ensures UnitTrue(envs, k, FetchUnit.Next(c, u, i), FetchInv.FlightNext(c, u, i, flight, k), i.now + 1)
  {
    assert i.ack ==> ReadTrue(envs, k, flight[0]);
  }

  predicate TrueAt(b: Build, envs: seq<Env>, p: Path, k: nat) {
    match p
    case Path(y, units, now) => k < |units| == b.arb.n && UnitTrue(envs, k, units[k], Of(y.flight, k), now)
  }

  lemma ResetTrue(b: Build, envs: seq<Env>, k: nat)
    requires ValidBuild(b) && k < b.arb.n
    ensures TrueAt(b, envs, PathReset(b), k)
  {
  }

  lemma TrueCycle(b: Build, p: Path, e: Env, envs: seq<Env>, k: nat, p': Path)
    requires PathInv(b, p) && Possible(b, p, e) && Fits(b, p, e) && k < b.arb.n && p' == PathNext(b, p, e)
    requires 0 <= p.now < |envs| && envs[p.now] == e && TrueAt(b, envs, p, k)
    ensures TrueAt(b, envs, p', k)
  {
    ContractKept(b, p, e, k);
    TrueStep(b.outputs[k], envs, k, p.units[k], UnitIn(b, p, e, k), Of(p.y.flight, k));
  }

  lemma TrueNext(b: Build, run: seq<Path>, envs: seq<Env>, t: int, k: nat)
    requires IsPathRun(b, run, envs) && 0 <= t < |envs| && k < b.arb.n && TrueAt(b, envs, run[t], k)
    ensures TrueAt(b, envs, run[t + 1], k)
  {
    CycleOf(b, run, envs, t);
    TrueCycle(b, run[t], envs[t], envs, k, run[t + 1]);
  }

  lemma {:induction false} RunTrue(b: Build, run: seq<Path>, envs: seq<Env>, t: int, k: nat)
    requires IsPathRun(b, run, envs) && 0 <= t < |run| && k < b.arb.n
    ensures TrueAt(b, envs, run[t], k)
  {
    if t == 0 {
      ResetTrue(b, envs, k);
    } else {
      RunTrue(b, run, envs, t - 1, k);
      TrueNext(b, run, envs, t - 1, k);
    }
  }

  // --- What a finished slot holds -----------------------------------------------------------

  /** `v` is the converted word that a read of the entry, taken by the memory during the fill, found at the
      address made from a base output k had during the fill. */
  predicate Fetched(c: PS.Cfg, envs: seq<Env>, k: nat, f: FetchUnit.Fill, row: int, col: int, g: int, v: int)
    requires |c.offsets| == 4 && 0 <= g < 4
  {
    var e := FetchUnit.Entry(col, g);
    e in f.words && var r := f.words[e];
    && 0 <= f.since < r.from.at < r.at < f.until && r.at < |envs| && k < |envs[r.from.at].bases|
    && r.adr == PS.Address(c, envs[r.from.at].bases[k], row, col, g)
    && v == c.conv(envs[r.at].mem(r.adr))
  }

  lemma SlotFetched(c: PS.Cfg, envs: seq<Env>, k: nat, u: FetchUnit.Unit, flight: seq<Read>, now: int, slot: int, col: int, g: int)
    requires FetchInv.UnitInv(c, u, flight, now) && UnitTrue(envs, k, u, flight, now)
    requires 0 <= slot < 3 && u.lb.q.ok[slot] && 0 <= col < c.columns && 0 <= g < 4
    ensures 0 <= u.lb.q.held[slot] < c.rows && u.done[slot].until <= now
    ensures var word := u.lb.mem[LB.Adr(FetchUnit.BufferCfg(c), slot, col)];
            |word| == 4 && Fetched(c, envs, k, u.done[slot], u.lb.q.held[slot], col, g, word[g])
  {
    assert FetchInv.SlotExact(c, u, slot);
    var f, word := u.done[slot], u.lb.mem[LB.Adr(FetchUnit.BufferCfg(c), slot, col)];
    assert FetchInv.PixelGot(c, FetchUnit.Job(u.lb.q.held[slot], f.since), f.words, col, word);
    assert FetchInv.Got(c, FetchUnit.Job(u.lb.q.held[slot], f.since), f.words, FetchUnit.Entry(col, g), word[g]);
    assert FillTrue(envs, k, f, f.until);
  }

  /** FINISHED ROWS ARE FETCHED. In every run, whatever the latency, the stalls, the interleaving of the
      outputs, the writes to the memory and the flips of the base, a finished slot holds at each column and
      group the converted word that the memory held when it took that entry's own read, at base + row * width
      + column + offset[group]. */
  lemma FinishedRowsAreFetched(b: Build, run: seq<Path>, envs: seq<Env>, t: int, k: nat, slot: int, col: int, g: int)
    requires IsPathRun(b, run, envs) && 0 <= t < |run| && k < b.arb.n
    requires |run[t].units| == b.arb.n && |run[t].units[k].lb.q.ok| == 3
    requires 0 <= slot < 3 && run[t].units[k].lb.q.ok[slot] && 0 <= col < b.outputs[k].columns && 0 <= g < 4
    ensures var c, u := b.outputs[k], run[t].units[k];
            && |u.lb.q.held| == |u.done| == 3 && |u.lb.mem| == 3 * c.columns && |c.offsets| == 4
            && 0 <= u.lb.q.held[slot] < c.rows && u.done[slot].until <= t
            && var word := u.lb.mem[LB.Adr(FetchUnit.BufferCfg(c), slot, col)];
               |word| == 4 && Fetched(c, envs, k, u.done[slot], u.lb.q.held[slot], col, g, word[g])
  {
    PathRunInv(b, run, envs, t);
    assert UnitOk(b, run[t], k);
    RunTrue(b, run, envs, t, k);
    SlotFetched(b.outputs[k], envs, k, run[t].units[k], Of(run[t].y.flight, k), t, slot, col, g);
  }

  /** Between two cycles output k's base stays, and so does the word at one of its addresses. */
  predicate Steady(c: PS.Cfg, envs: seq<Env>, k: nat, from: int, to: int, base: int, row: int, col: int, g: int, word: int)
    requires |c.offsets| == 4 && 0 <= g < 4
  {
    forall s | from < s < to && 0 <= s < |envs| :: SteadyAt(c, envs[s], k, base, row, col, g, word)
  }

  predicate SteadyAt(c: PS.Cfg, e: Env, k: nat, base: int, row: int, col: int, g: int, word: int)
    requires |c.offsets| == 4 && 0 <= g < 4
  {
    k < |e.bases| && e.bases[k] == base && e.mem(PS.Address(c, base, row, col, g)) == word
  }

  /** What was fetched during a fill in which nothing moved is what a plain read finds. */
  lemma FetchedIsPlain(c: PS.Cfg, envs: seq<Env>, k: nat, f: FetchUnit.Fill, row: int, col: int, g: int, v: int,
                       base: int, word: int)
    requires |c.offsets| == 4 && 0 <= g < 4 && Fetched(c, envs, k, f, row, col, g, v)
    requires Steady(c, envs, k, f.since, f.until, base, row, col, g, word)
    ensures v == c.conv(word)
  {
    var r := f.words[FetchUnit.Entry(col, g)];
    assert SteadyAt(c, envs[r.from.at], k, base, row, col, g, word);
    assert SteadyAt(c, envs[r.at], k, base, row, col, g, word);
  }

  /** FINISHED ROWS ARE EXACT. A fill during which neither the base nor the words of its row change leaves
      exactly conv(mem[base + row * width + column + offset[group]]). */
  lemma FinishedRowsAreExact(b: Build, run: seq<Path>, envs: seq<Env>, t: int, k: nat, slot: int, col: int, g: int,
                             base: int, word: int)
    requires IsPathRun(b, run, envs) && 0 <= t < |run| && k < b.arb.n && |b.outputs[k].offsets| == 4
    requires |run[t].units| == b.arb.n && |run[t].units[k].lb.q.ok| == |run[t].units[k].lb.q.held| == |run[t].units[k].done| == 3
    requires 0 <= slot < 3 && run[t].units[k].lb.q.ok[slot] && 0 <= col < b.outputs[k].columns && 0 <= g < 4
    requires var u := run[t].units[k];
             Steady(b.outputs[k], envs, k, u.done[slot].since, u.done[slot].until, base, u.lb.q.held[slot], col, g, word)
    ensures var c, u := b.outputs[k], run[t].units[k];
            && |u.lb.mem| == 3 * c.columns
            && var got := u.lb.mem[LB.Adr(FetchUnit.BufferCfg(c), slot, col)];
               |got| == 4 && got[g] == c.conv(word)
  {
    FinishedRowsAreFetched(b, run, envs, t, k, slot, col, g);
    var c, u := b.outputs[k], run[t].units[k];
    FetchedIsPlain(c, envs, k, u.done[slot], u.lb.q.held[slot], col, g,
                   u.lb.mem[LB.Adr(FetchUnit.BufferCfg(c), slot, col)][g], base, word);
  }

  /** The slot an output reads in a cycle. */
  function SlotRead(b: Build, p: Path, e: Env, k: nat): int
    requires Fits(b, p, e) && k < b.arb.n
  {
    LB.ReadSlot(p.units[k].lb.q, FetchUnit.BufferIn(p.units[k], UnitIn(b, p, e, k)))
  }

  predicate PrimedIn(b: Build, p: Path, e: Env, k: nat)
    requires Fits(b, p, e) && k < b.arb.n
  {
    LB.Primed(p.units[k].lb.q, FetchUnit.BufferIn(p.units[k], UnitIn(b, p, e, k)))
  }

  lemma UnitReads(c: PS.Cfg, u: FetchUnit.Unit, i: FetchUnit.In)
    requires FetchUnit.Shaped(c, u, i) && LB.Primed(u.lb.q, FetchUnit.BufferIn(u, i))
    ensures var slot := LB.ReadSlot(u.lb.q, FetchUnit.BufferIn(u, i));
            && 0 <= slot < 3 && u.lb.q.ok[slot] && u.lb.q.held[slot] == i.row
            && FetchUnit.Next(c, u, i).lb.q.rdData == u.lb.mem[LB.Adr(FetchUnit.BufferCfg(c), slot, i.col)]
  {
  }

  /** THE FETCH PATH REFINES A DIRECT READ. Whenever an output's buffer says the row is there, each group of
      the data it registers was fetched, as above, in the fill that gave the slot. */
  lemma PrimedReadsAreFetched(b: Build, run: seq<Path>, envs: seq<Env>, t: int, k: nat, g: int)
    requires IsPathRun(b, run, envs) && 0 <= t < |envs| && k < b.arb.n && 0 <= g < 4
    requires Fits(b, run[t], envs[t]) ==> PrimedIn(b, run[t], envs[t], k)
    ensures Fits(b, run[t], envs[t]) && |run[t + 1].units| == b.arb.n
    ensures var s, u, slot := envs[t].spots[k], run[t].units[k], SlotRead(b, run[t], envs[t], k);
            && 0 <= slot < 3 && u.done[slot].until <= t
            && var got := run[t + 1].units[k].lb.q.rdData;
               |got| == 4 && Fetched(b.outputs[k], envs, k, u.done[slot], s.row, s.col, g, got[g])
  {
    CycleOf(b, run, envs, t);
    assert UnitOk(b, run[t], k);
    RunTrue(b, run, envs, t, k);
    var c, u, i := b.outputs[k], run[t].units[k], UnitIn(b, run[t], envs[t], k);
    assert OnPanel(c, envs[t].spots[k]);
    UnitReads(c, u, i);
    SlotFetched(c, envs, k, u, Of(run[t].y.flight, k), t, SlotRead(b, run[t], envs[t], k), envs[t].spots[k].col, g);
  }
}
