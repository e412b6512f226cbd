/** The receive stream's splitter: one sink, two consumers that take each beat in their own time. */
module Splitter {

  datatype Regs = Regs(read1: bool, read2: bool)

  /** One cycle: whether the sink offers its current beat, and whether each consumer would take one. */
  datatype In = In(valid: bool, ready1: bool, ready2: bool)

  predicate Valid1(q: Regs, i: In) { i.valid && !q.read1 }

  predicate Valid2(q: Regs, i: In) { i.valid && !q.read2 }

  predicate Ready(q: Regs, i: In) { (i.ready1 || q.read1) && (i.ready2 || q.read2) }

  function Next(q: Regs, i: In): Regs {
    if i.valid && Ready(q, i) then Regs(false, false)
    else if i.valid then Regs(q.read1 || i.ready1, q.read2 || i.ready2)
    else q
  }

  class StreamSplitter {
    var q: Regs

    constructor ()
      ensures q == Regs(false, false)
    {
      q := Regs(false, false);
    }

    method Clock(i: In) returns (valid1: bool, valid2: bool, ready: bool)
      modifies this
      ensures q == Next(old(q), i)
      ensures valid1 == Valid1(old(q), i) && valid2 == Valid2(old(q), i) && ready == Ready(old(q), i)
    {
      valid1, valid2 := i.valid && !q.read1, i.valid && !q.read2;
      ready := (i.ready1 || q.read1) && (i.ready2 || q.read2);
      if i.valid && ready {
        q := Regs(false, false);
      } else if i.valid {
        if i.ready1 { q := q.(read1 := true); }
        if i.ready2 { q := q.(read2 := true); }
      }
    }
  }

  // --- Runs ---------------------------------------------------------------------------------

  /** How many beats the sink has given up, and what each consumer has received. */
  datatype World<T> = World(q: Regs, taken: nat, got1: seq<T>, got2: seq<T>)

  /** The sink offers beat number `taken` of `beats`: the same one until it is taken. */
  function Step<T>(beats: seq<T>, w: World<T>, i: In): World<T>
    requires w.taken <= |beats| && (i.valid ==> w.taken < |beats|)
  {
    World(Next(w.q, i),
          if i.valid && Ready(w.q, i) then w.taken + 1 else w.taken,
          if Valid1(w.q, i) && i.ready1 then w.got1 + [beats[w.taken]] else w.got1,
          if Valid2(w.q, i) && i.ready2 then w.got2 + [beats[w.taken]] else w.got2)
  }

  predicate TickAt<T(==)>(beats: seq<T>, run: seq<World<T>>, ins: seq<In>, t: nat)
    requires t < |ins| && |run| == |ins| + 1
  {
    && run[t].taken <= |beats| && (ins[t].valid ==> run[t].taken < |beats|)
    && run[t + 1] == Step(beats, run[t], ins[t])
  }

  predicate IsRun<T(==)>(beats: seq<T>, run: seq<World<T>>, ins: seq<In>) {
    && |run| == |ins| + 1 && run[0] == World(Regs(false, false), 0, [], [])
    && forall t | 0 <= t < |ins| :: TickAt(beats, run, ins, t)
  }

  function One(b: bool): nat { if b then 1 else 0 }

  /** ONCE EACH, IN ORDER. Under every pattern of readiness, a consumer has received exactly the beats
      taken so far, plus the one on offer if it was first to take it; so the two differ by at most one. */
  lemma {:induction false} EveryBeatOnceInOrder<T>(beats: seq<T>, run: seq<World<T>>, ins: seq<In>, t: nat)
    requires IsRun(beats, run, ins) && t < |run|
    ensures var w := run[t];
            && w.taken + One(w.q.read1 || w.q.read2) <= |beats| && !(w.q.read1 && w.q.read2)
            && w.got1 == beats[..w.taken + One(w.q.read1)]
            && w.got2 == beats[..w.taken + One(w.q.read2)]
  {
    if t > 0 {
      EveryBeatOnceInOrder(beats, run, ins, t - 1);
      assert TickAt(beats, run, ins, t - 1);
    }
  }

  /** A beat is on offer from cycle s to cycle t, and nobody had taken it before. */
  predicate OnOffer<T>(run: seq<World<T>>, ins: seq<In>, s: nat, t: nat)
    requires |run| == |ins| + 1
  {
    && s <= t < |ins| && run[s].q == Regs(false, false) && run[t].taken == run[s].taken
    && forall u | s <= u <= t :: ins[u].valid
  }

  /** Consumer 1 was ready in one of the cycles from s up to t. */
  predicate Ready1(ins: seq<In>, s: nat, t: nat)
    requires t <= |ins|
  {
    exists u | s <= u < t :: ins[u].ready1
  }

  predicate Ready2(ins: seq<In>, s: nat, t: nat)
    requires t <= |ins|
  {
    exists u | s <= u < t :: ins[u].ready2
  }

  lemma Later(ins: seq<In>, s: nat, t: nat)
    requires s <= t < |ins|
    ensures Ready1(ins, s, t + 1) == (Ready1(ins, s, t) || ins[t].ready1)
    ensures Ready2(ins, s, t + 1) == (Ready2(ins, s, t) || ins[t].ready2)
  {
  }

  lemma {:induction false} FlagsAre<T>(beats: seq<T>, run: seq<World<T>>, ins: seq<In>, s: nat, t: nat)
    requires IsRun(beats, run, ins) && OnOffer(run, ins, s, t)
    ensures run[t].q == Regs(Ready1(ins, s, t), Ready2(ins, s, t))
  {
    if t > s {
      assert TickAt(beats, run, ins, t - 1);
      Grows(beats, run, ins, s, t - 1);
      FlagsAre(beats, run, ins, s, t - 1);
      Later(ins, s, t - 1);
    }
  }

  lemma {:induction false} Grows<T>(beats: seq<T>, run: seq<World<T>>, ins: seq<In>, s: nat, t: nat)
    requires IsRun(beats, run, ins) && s <= t < |run|
    ensures run[s].taken <= run[t].taken
  {
    if t > s {
      Grows(beats, run, ins, s, t - 1);
      assert TickAt(beats, run, ins, t - 1);
    }
  }

  /** NO LATER THAN IT MUST. A beat on offer leaves the sink in the very cycle by which each consumer has been ready
      once since it came, and not before. */
  lemma LeavesExactly<T>(beats: seq<T>, run: seq<World<T>>, ins: seq<In>, s: nat, t: nat)
    requires IsRun(beats, run, ins) && OnOffer(run, ins, s, t)
    ensures run[t + 1].taken == run[t].taken + 1 <==> Ready1(ins, s, t + 1) && Ready2(ins, s, t + 1)
  {
    FlagsAre(beats, run, ins, s, t);
    Later(ins, s, t);
    assert TickAt(beats, run, ins, t);
  }
}
